// Which stores put a coordinator into a state that keeps its invariant
// (src/fabric_api.cpp, apply_durable).

module Loading {
  import opened Base
  import opened Policy
  import opened Records
  import opened Indexing
  import opened Durable
  import opened Fabric
  import opened Runs
  import opened Moves
  import opened Invariants
  import Store
  import StoreRecords

  // ------------------------------------------------------------------------
  // What becomes of one policy
  // ------------------------------------------------------------------------

  // The first record of an identity is kept.
  predicate FirstAt(ps: seq<AdaptivePolicy>, i: int)
  {
    0 <= i < |ps| && forall j :: 0 <= j < i ==> ps[j].id != ps[i].id
  }

  // The last preference and the last anchor of a policy are kept.
  function LastPreference(xs: seq<DurablePreference>, id: Id, none: Preference): Preference
  {
    if xs == [] then none
    else if xs[|xs| - 1].policy == id then xs[|xs| - 1].preference
    else LastPreference(xs[..|xs| - 1], id, none)
  }

  function LastStable(xs: seq<DurableStable>, id: Id): Stable
  {
    if xs == [] then NO_STABLE
    else if xs[|xs| - 1].policy == id then xs[|xs| - 1].stable
    else LastStable(xs[..|xs| - 1], id)
  }

  // The store can be checked before it is loaded, policy by policy: the
  // semantics are valid and the last preference and anchor belong together.
  ghost predicate Loadable(d: DurableState)
  {
    forall i :: FirstAt(d.policies, i) ==> LoadableAt(d, d.policies[i])
  }

  ghost predicate LoadableAt(d: DurableState, p: AdaptivePolicy)
  {
    && p.semantics.Valid()
    && AnchorHolds(LastPreference(d.preferences, p.id, NoPreference(p.semantics.target)), LastStable(d.stables, p.id))
  }

  lemma {:induction false} RestoredFirst(ps: seq<AdaptivePolicy>, conservative: bool, i: int)
    requires FirstAt(ps, i)
    ensures ps[i].id in RestorePolicies(ps, conservative)
    ensures RestorePolicies(ps, conservative)[ps[i].id] == RestoredPolicy(ps[i], conservative)
    decreases |ps|
  {
    var init := ps[..|ps| - 1];
    if i < |ps| - 1 {
      RestoredFirst(init, conservative, i);
    } else {
      RestoredKeys(init, conservative);
    }
  }

  lemma {:induction false} RestoredIsFirst(ps: seq<AdaptivePolicy>, conservative: bool, id: Id)
    ensures id in RestorePolicies(ps, conservative) ==> exists i :: FirstAt(ps, i) && ps[i].id == id
    decreases |ps|
  {
    hide RestoredPolicy;
    if ps != [] {
      var init, last := ps[..|ps| - 1], |ps| - 1;
      if id in RestorePolicies(init, conservative) {
        RestoredIsFirst(init, conservative, id);
        var i :| FirstAt(init, i) && init[i].id == id;
        assert FirstAt(ps, i);
      } else if id == ps[last].id {
        RestoredKeys(init, conservative);
        assert FirstAt(ps, last);
      }
    }
  }

  // The same anchor facts, whatever the recovered preference records as cause.
  ghost predicate Kept(r: PolicyRecord, p: AdaptivePolicy, q: Preference, anchor: Stable)
  {
    && r.policy.id == p.id && r.policy.semantics == p.semantics && r.candidates == [] && r.stable == anchor
    && r.preference == q.(provenance := r.preference.provenance)
  }

  lemma {:induction false} PreferencesKept(r: PolicyRecord, xs: seq<DurablePreference>, id: Id)
    ensures var t := FoldFor(r, xs, id, PreferenceKey, PutPreference);
            && t == r.(preference := t.preference)
            && t.preference == LastPreference(xs, id, r.preference).(provenance := t.preference.provenance)
    decreases |xs|
  {
    if xs != [] {
      PreferencesKept(r, xs[..|xs| - 1], id);
    }
  }

  lemma {:induction false} StablesKept(r: PolicyRecord, xs: seq<DurableStable>, id: Id)
    requires r.stable == NO_STABLE
    ensures FoldFor(r, xs, id, StableKey, PutStable) == r.(stable := LastStable(xs, id))
    decreases |xs|
  {
    if xs != [] {
      StablesKept(r, xs[..|xs| - 1], id);
    }
  }

  lemma {:induction false} TimingsKept(r: PolicyRecord, xs: seq<DurableTiming>, id: Id, now: Ticks)
    ensures var t := FoldFor(r, xs, id, TimingKey, PutTiming(now)); t == r.(timing := t.timing)
    decreases |xs|
  {
    if xs != [] {
      TimingsKept(r, xs[..|xs| - 1], id, now);
    }
  }

  lemma RestoredIs(d: DurableState, now: Ticks, limits: Limits, i: int)
    requires FirstAt(d.policies, i)
    ensures var p := d.policies[i];
            && p.id in RestoredRecords(d, now, limits)
            && Kept(RestoredRecords(d, now, limits)[p.id], p,
                    LastPreference(d.preferences, p.id, NoPreference(p.semantics.target)), LastStable(d.stables, p.id))
  {
    hide RestoredRecords, RestorePolicies, LastPreference, LastStable, NoPreference;
    var p := d.policies[i];
    var base := RestoredPolicy(p, limits.conservativeRecovery);
    RestoredFirst(d.policies, limits.conservativeRecovery, i);
    SectionsAt(d, now, limits, p.id);
    PreferencesKept(base, d.preferences, p.id);
    var preferred := FoldFor(base, d.preferences, p.id, PreferenceKey, PutPreference);
    StablesKept(preferred, d.stables, p.id);
    var stable := FoldFor(preferred, d.stables, p.id, StableKey, PutStable);
    TimingsKept(stable, d.timings, p.id, now);
    var timed := FoldFor(stable, d.timings, p.id, TimingKey, PutTiming(now));
    FoldKeepsAllBut(timed, d.history, d.revocations, p.id, limits.maxHistory);
    var revoked := FoldFor(timed, d.revocations, p.id, RevocationKey, PutRevocation);
    FoldKeepsAllBut(revoked, d.history, d.revocations, p.id, limits.maxHistory);
  }

  lemma RestoredNames(d: DurableState, now: Ticks, limits: Limits)
    ensures RestoredRecords(d, now, limits).Keys == RestorePolicies(d.policies, limits.conservativeRecovery).Keys
  {
  }

  // ------------------------------------------------------------------------
  // The invariant after loading
  // ------------------------------------------------------------------------

  lemma KeptIsOk(r: PolicyRecord, p: AdaptivePolicy, q: Preference, anchor: Stable)
    requires Kept(r, p, q, anchor)
    ensures PolicyOk(r) <==> p.semantics.Valid() && AnchorHolds(q, anchor)
  {
  }

  // Loading an accepted store puts the coordinator into a state that keeps its
  // invariant exactly when the store is loadable.
  lemma LoadedIsOk(d: DurableState, now: Ticks, limits: Limits)
    requires RecoveryRefusal(d, limits).None?
    ensures StateOk(Recovered(d, now, limits)) <==> Loadable(d)
  {
    hide Recovered, RestoredRecords, RestorePolicies, PolicyOk, AnchorHolds, LastPreference, LastStable, NoPreference,
         Semantics.FirstDefect;
    RecoveredFacts(d, now, limits);
    RestoredNames(d, now, limits);
    var records := RestoredRecords(d, now, limits);
    forall i | FirstAt(d.policies, i)
      ensures d.policies[i].id in records && records[d.policies[i].id].policy.id == d.policies[i].id
      ensures PolicyOk(records[d.policies[i].id]) <==> LoadableAt(d, d.policies[i])
    {
      var p := d.policies[i];
      RestoredIs(d, now, limits, i);
      KeptIsOk(records[p.id], p, LastPreference(d.preferences, p.id, NoPreference(p.semantics.target)),
               LastStable(d.stables, p.id));
    }
    forall id | id in records
      ensures exists i :: FirstAt(d.policies, i) && d.policies[i].id == id
    {
      RestoredIsFirst(d.policies, limits.conservativeRecovery, id);
    }
  }

  // What a coordinator saves is loadable.
  lemma SavedIsLoadable(s: State, saved: SaveTimes, now: Ticks, limits: Limits)
    requires StateOk(s) && RecoveryRefusal(Stripped(BuildDurable(s, saved)), limits).None?
    ensures Loadable(Stripped(BuildDurable(s, saved)))
  {
    hide Loadable, BuildDurable, RecoveryRefusal, Recovered, StateOk;
    LoadedIsOk(Stripped(BuildDurable(s, saved)), now, limits);
    StepOk(s, Event(Restart(saved), now), limits);
  }

  lemma OwnerIsFirst(ps: seq<AdaptivePolicy>, id: Id)
    requires Store.DistinctIds(ps) && StoreRecords.OwnerOf(ps, id).Some?
    ensures exists i :: FirstAt(ps, i) && ps[i].id == id
  {
    var p := StoreRecords.OwnerOf(ps, id).value;
    var i :| 0 <= i < |ps| && ps[i] == p;
    assert FirstAt(ps, i);
  }

  lemma {:induction false} LastStableAt(xs: seq<DurableStable>, k: nat)
    requires k < |xs| && forall j :: k < j < |xs| ==> xs[j].policy != xs[k].policy
    ensures LastStable(xs, xs[k].policy) == xs[k].stable
    decreases |xs|
  {
    if k < |xs| - 1 {
      LastStableAt(xs[..|xs| - 1], k);
    }
  }

  // A store that passes every check of the reader need not be loadable: it may
  // mark an anchor as established where the preference displaced nothing.
  lemma ReadableNeedNotBeLoadable(d: DurableState, k: nat, x: DurableStable)
    requires Store.Storable(d) && k < |d.stables| && Store.StableFits(d.policies, x)
    requires x.policy == d.stables[k].policy && x.stable.established
    requires forall j :: k < j < |d.stables| ==> d.stables[j].policy != x.policy
    requires forall target :: !ValidId(LastPreference(d.preferences, x.policy, NoPreference(target)).previous)
    ensures Store.Storable(d.(stables := d.stables[k := x])) && !Loadable(d.(stables := d.stables[k := x]))
  {
    hide Store.PoliciesOk, Store.RevocationsOk, Store.PreferencesOk, Store.TimingsOk, Store.HistoriesOk,
         Store.StableFits, LastPreference, LastStable, Semantics.FirstDefect;
    var broken := d.(stables := d.stables[k := x]);
    OwnerOfStable(d.policies, x);
    var i :| FirstAt(d.policies, i) && d.policies[i].id == x.policy;
    LastStableAt(broken.stables, k);
    assert !LoadableAt(broken, d.policies[i]);
  }

  lemma OwnerOfStable(ps: seq<AdaptivePolicy>, x: DurableStable)
    requires Store.PoliciesOk(ps) && Store.StableFits(ps, x)
    ensures exists i :: FirstAt(ps, i) && ps[i].id == x.policy
  {
    hide StoreRecords.PolicyOk, StoreRecords.OwnerOf;
    OwnerIsFirst(ps, x.policy);
  }
}
