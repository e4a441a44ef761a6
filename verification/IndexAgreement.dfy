// When the reverse indexes agree with a full scan: exactly as long as every
// step found room in the bounded path index.

module IndexAgreement {
  import opened Base
  import opened Evidence
  import opened Outcomes
  import opened Policy
  import opened Records
  import opened Indexing
  import opened Durable
  import opened Fabric
  import opened Runs
  import opened Fencing
  import opened Invariants

  // ------------------------------------------------------------------------
  // What a scan finds
  // ------------------------------------------------------------------------

  // The keys under which each policy must be found.
  type Keys = map<Id, set<Id>>

  // The index lists under each key exactly the policies with that key, and has
  // no empty entry.
  ghost predicate Agrees(index: Index, keys: Keys)
  {
    && (forall k, p :: p in Get(index, k) <==> p in keys && k in keys[p])
    && (forall k :: k in index ==> index[k] != {})
  }

  function TargetSet(r: PolicyRecord): set<Id>
  {
    if r.policy.semantics.target.multipath.Some? then {r.policy.semantics.target.multipath.value} else {}
  }

  ghost function PathKeys(ps: map<Id, PolicyRecord>): Keys { map id | id in ps :: Paths(ps[id].candidates) }
  ghost function RouteKeys(ps: map<Id, PolicyRecord>): Keys
  {
    map id | id in ps :: {ps[id].policy.semantics.target.route}
  }

  ghost function SetKeys(ps: map<Id, PolicyRecord>): Keys { map id | id in ps :: TargetSet(ps[id]) }
  ghost function SourceKeys(ps: map<Id, PolicyRecord>, store: Store): Keys
  {
    map id | id in ps :: SourcesOf(store, Paths(ps[id].candidates))
  }

  ghost predicate Exact(x: Indexes, ps: map<Id, PolicyRecord>, store: Store)
  {
    && Agrees(x.byPath, PathKeys(ps)) && Agrees(x.byRoute, RouteKeys(ps))
    && Agrees(x.bySet, SetKeys(ps)) && Agrees(x.bySource, SourceKeys(ps, store))
  }

  ghost predicate IndexesExact(s: State) { Exact(s.index, s.policies, s.evidence) }

  // ------------------------------------------------------------------------
  // One index
  // ------------------------------------------------------------------------

  lemma AddAllAgrees(index: Index, keys: Keys, p: Id, more: set<Id>)
    requires Agrees(index, keys) && p in keys
    ensures Agrees(AddAll(index, more, p), keys[p := keys[p] + more])
  {
    var after, keys' := AddAll(index, more, p), keys[p := keys[p] + more];
    forall k, q
      ensures q in Get(after, k) <==> q in keys' && k in keys'[q]
    {
      assert q in Get(index, k) <==> q in keys && k in keys[q];
    }
  }

  lemma DropAllAgrees(index: Index, keys: Keys, p: Id, less: set<Id>)
    requires Agrees(index, keys) && p in keys && keys[p] <= less
    ensures Agrees(DropAll(index, less, p), keys[p := {}])
  {
    var after, keys' := DropAll(index, less, p), keys[p := {}];
    forall k, q
      ensures q in Get(after, k) <==> q in keys' && k in keys'[q]
    {
      assert q in Get(index, k) <==> q in keys && k in keys[q];
      assert p in Get(index, k) <==> p in keys && k in keys[p];
    }
  }

  lemma NewKeyAgrees(index: Index, keys: Keys, p: Id)
    requires Agrees(index, keys) && p !in keys
    ensures Agrees(index, keys[p := {}])
  {
    forall k, q
      ensures q in Get(index, k) <==> q in keys[p := {}] && k in keys[p := {}][q]
    {
      assert q in Get(index, k) <==> q in keys && k in keys[q];
    }
  }

  lemma AddIsAddAll(index: Index, k: Id, p: Id)
    ensures Add(index, k, p) == AddAll(index, {k}, p)
  {
    assert Add(index, k, p).Keys == AddAll(index, {k}, p).Keys;
  }

  lemma DropIsDropAll(index: Index, k: Id, p: Id)
    ensures Drop(index, k, p) == DropAll(index, {k}, p)
  {
    assert Drop(index, k, p).Keys == DropAll(index, {k}, p).Keys;
  }

  lemma AddNothing(index: Index, p: Id)
    ensures AddAll(index, {}, p) == index
  {
  }

  lemma AddAllTwice(index: Index, a: set<Id>, b: set<Id>, p: Id)
    ensures AddAll(AddAll(index, a, p), b, p) == AddAll(index, b + a, p)
  {
    assert AddAll(AddAll(index, a, p), b, p).Keys == AddAll(index, b + a, p).Keys;
  }

  lemma {:induction false} SubsetSize(a: set<Id>, b: set<Id>)
    requires a <= b
    ensures |a| <= |b|
    decreases a
  {
    if a != {} {
      var x :| x in a;
      SubsetSize(a - {x}, b - {x});
    }
  }

  // ------------------------------------------------------------------------
  // The path index is bounded
  // ------------------------------------------------------------------------

  // Going through the candidates, the index is not full before every path not
  // yet listed for the policy has been added.
  predicate Room(index: Index, cs: seq<Candidate>, p: Id, part: set<Id>, cap: nat)
    decreases |cs|
  {
    || Paths(cs) <= part
    || (cs != [] && |index| < cap && Room(Add(index, PathOf(cs[0]), p), cs[1..], p, part + {PathOf(cs[0])}, cap))
  }

  lemma PathsStep(cs: seq<Candidate>)
    requires cs != []
    ensures Paths(cs) == {PathOf(cs[0])} + Paths(cs[1..])
    ensures Paths(cs) == Paths(cs[..|cs| - 1]) + {PathOf(cs[|cs| - 1])}
  {
    assert cs == [cs[0]] + cs[1..];
    assert cs == cs[..|cs| - 1] + [cs[|cs| - 1]];
  }

  lemma FullIndexAgrees(index: Index, keys: Keys, p: Id, part: set<Id>, more: set<Id>)
    requires Agrees(index, keys[p := part])
    ensures Agrees(index, keys[p := part + more]) <==> more <= part
  {
    if more <= part {
      assert part + more == part;
    }
    if Agrees(index, keys[p := part + more]) {
      forall k | k in more
        ensures k in part
      {
        assert p in Get(index, k) <==> k in keys[p := part + more][p];
        assert p in Get(index, k) <==> k in keys[p := part][p];
      }
    }
  }

  lemma {:induction false} IndexingNeedsRoom(
    index: Index, keys: Keys, cs: seq<Candidate>, p: Id, part: set<Id>, cap: nat)
    requires Agrees(index, keys[p := part])
    ensures Agrees(IndexPaths(index, cs, p, cap), keys[p := part + Paths(cs)]) <==> Room(index, cs, p, part, cap)
    decreases |cs|
  {
    hide Agrees, Paths, Add, PathOf;
    FullIndexAgrees(index, keys, p, part, Paths(cs));
    if cs == [] {
      NoPaths();
    } else if |index| < cap {
      var x := PathOf(cs[0]);
      AddAgrees(index, keys, p, part, x);
      IndexingNeedsRoom(Add(index, x, p), keys, cs[1..], p, part + {x}, cap);
      PathsStep(cs);
      assert part + {x} + Paths(cs[1..]) == part + Paths(cs);
      RoomIsKept(Add(index, x, p), cs[1..], p, part + {x}, cap);
      assert Paths(cs) <= part ==> Paths(cs[1..]) <= part + {x};
    }
  }

  lemma RoomIsKept(index: Index, cs: seq<Candidate>, p: Id, part: set<Id>, cap: nat)
    ensures Paths(cs) <= part ==> Room(index, cs, p, part, cap)
  {
  }

  lemma AddAgrees(index: Index, keys: Keys, p: Id, part: set<Id>, x: Id)
    requires Agrees(index, keys[p := part])
    ensures Agrees(Add(index, x, p), keys[p := part + {x}])
  {
    hide Agrees, Add, AddAll;
    AddAllAgrees(index, keys[p := part], p, {x});
    AddIsAddAll(index, x, p);
    assert keys[p := part][p := part + {x}] == keys[p := part + {x}];
  }

  // When one path is missing it finds room exactly below the cap.
  lemma {:induction false} RoomForOne(
    index: Index, keys: Keys, cs: seq<Candidate>, p: Id, part: set<Id>, x: Id, cap: nat)
    requires Agrees(index, keys[p := part]) && x !in part && Paths(cs) <= part + {x} && x in Paths(cs)
    ensures Room(index, cs, p, part, cap) <==> |index| < cap
    decreases |cs|
  {
    PathsStep(cs);
    var y := PathOf(cs[0]);
    if y == x {
      assert Paths(cs[1..]) <= part + {x};
    } else {
      assert p in Get(index, y) <==> y in keys[p := part][p];
      assert index[y] + {p} == index[y];
      assert Add(index, y, p) == index && part + {y} == part;
      RoomForOne(index, keys, cs[1..], p, part, x, cap);
    }
  }

  // When the last path is missing, all others have been added before it.
  lemma {:induction false} RoomForLast(index: Index, cs: seq<Candidate>, p: Id, part: set<Id>, cap: nat)
    requires cs != [] && PathOf(cs[|cs| - 1]) !in part + Paths(cs[..|cs| - 1])
    ensures Room(index, cs, p, part, cap) <==> |AddAll(index, Paths(cs[..|cs| - 1]), p)| < cap
    decreases |cs|
  {
    hide AddAll, Add, Paths, PathOf;
    var init := cs[..|cs| - 1];
    PathsStep(cs);
    if |cs| == 1 {
      NoPaths();
      assert init == [] && cs[1..] == [];
      AddNothing(index, p);
    } else {
      var x := PathOf(cs[0]);
      assert cs[1..][..|cs| - 2] == init[1..];
      PathsStep(init);
      RoomForLast(Add(index, x, p), cs[1..], p, part + {x}, cap);
      AddIsAddAll(index, x, p);
      AddAllTwice(index, {x}, Paths(init[1..]), p);
      assert Paths(init[1..]) + {x} == Paths(init);
      AddAllGrows(index, Paths(init), p);
    }
  }

  lemma AddAllGrows(index: Index, keys: set<Id>, p: Id)
    ensures |index| <= |AddAll(index, keys, p)|
  {
    SubsetSize(index.Keys, AddAll(index, keys, p).Keys);
  }

  predicate ListedAlone(index: Index, path: Id, p: Id) { Get(index, path) == {p} }

  // What unindexing and indexing again comes to, one path short of the end.
  lemma BeforeTheLast(index: Index, keys: Keys, p: Id, init: set<Id>, last: Id)
    requires Agrees(index, keys) && p in keys && keys[p] == init + {last} && last !in init
    ensures |AddAll(DropAll(index, keys[p], p), init, p)| == |index| - (if ListedAlone(index, last, p) then 1 else 0)
  {
    var again := AddAll(DropAll(index, keys[p], p), init, p);
    forall k
      ensures k in again <==> k in index && !(k == last && ListedAlone(index, last, p))
    {
      assert p in Get(index, k) <==> p in keys && k in keys[p];
      assert k in index ==> index[k] != {};
    }
    if ListedAlone(index, last, p) {
      assert again.Keys == index.Keys - {last};
    } else {
      assert again.Keys == index.Keys;
    }
  }

  // ------------------------------------------------------------------------
  // Indexing and unindexing one policy
  // ------------------------------------------------------------------------

  // The four key maps, with one policy set apart.
  ghost predicate ExactBut(x: Indexes, ps: map<Id, PolicyRecord>, store: Store, p: Id, paths: set<Id>, routes: set<Id>,
                           sets: set<Id>, sources: set<Id>)
  {
    && Agrees(x.byPath, PathKeys(ps)[p := paths]) && Agrees(x.byRoute, RouteKeys(ps)[p := routes])
    && Agrees(x.bySet, SetKeys(ps)[p := sets]) && Agrees(x.bySource, SourceKeys(ps, store)[p := sources])
  }

  lemma PathKeysOfUpdate(ps: map<Id, PolicyRecord>, p: Id, r: PolicyRecord)
    ensures PathKeys(ps[p := r]) == PathKeys(ps)[p := Paths(r.candidates)]
  {
    hide Paths;
  }

  lemma TargetKeysOfUpdate(ps: map<Id, PolicyRecord>, p: Id, r: PolicyRecord)
    ensures RouteKeys(ps[p := r]) == RouteKeys(ps)[p := {r.policy.semantics.target.route}]
    ensures SetKeys(ps[p := r]) == SetKeys(ps)[p := TargetSet(r)]
  {
    hide TargetSet;
  }

  lemma SourceKeysOfUpdate(ps: map<Id, PolicyRecord>, store: Store, p: Id, r: PolicyRecord)
    ensures SourceKeys(ps[p := r], store) == SourceKeys(ps, store)[p := SourcesOf(store, Paths(r.candidates))]
  {
    hide Paths, SourcesOf;
  }

  // Adding a policy's keys on top of any part of them gives exactly them.
  lemma AddingIsExact(index: Index, keys: Keys, p: Id, part: set<Id>, whole: set<Id>)
    requires Agrees(index, keys[p := part]) && part <= whole
    ensures Agrees(AddAll(index, whole, p), keys[p := whole])
  {
    hide Agrees, AddAll;
    AddAllAgrees(index, keys[p := part], p, whole);
    assert part + whole == whole;
    assert keys[p := part][p := part + whole] == keys[p := whole];
  }

  // Indexing one policy keeps the other three indexes exact in any case, and the
  // path index exactly when there is room.
  lemma IndexingIsExact(
    x: Indexes, ps: map<Id, PolicyRecord>, store: Store, p: Id, r: PolicyRecord, paths: set<Id>, routes: set<Id>,
    sets: set<Id>, sources: set<Id>, cap: nat)
    requires ExactBut(x, ps, store, p, paths, routes, sets, sources)
    requires paths <= Paths(r.candidates) && routes <= {r.policy.semantics.target.route} && sets <= TargetSet(r)
    requires sources <= SourcesOf(store, Paths(r.candidates))
    ensures Exact(IndexedWith(x, r, store, p, cap), ps[p := r], store) <==> Room(x.byPath, r.candidates, p, paths, cap)
  {
    hide Get, AddAll, Add, Agrees, Paths, SourcesOf, IndexPaths, PathKeys, RouteKeys, SetKeys, SourceKeys, Room;
    var target := r.policy.semantics.target;
    PathKeysOfUpdate(ps, p, r);
    TargetKeysOfUpdate(ps, p, r);
    SourceKeysOfUpdate(ps, store, p, r);
    IndexingNeedsRoom(x.byPath, PathKeys(ps), r.candidates, p, paths, cap);
    assert paths + Paths(r.candidates) == Paths(r.candidates);
    AddIsAddAll(x.byRoute, target.route, p);
    AddingIsExact(x.byRoute, RouteKeys(ps), p, routes, {target.route});
    if target.multipath.Some? {
      AddIsAddAll(x.bySet, target.multipath.value, p);
    } else {
      AddNothing(x.bySet, p);
    }
    AddingIsExact(x.bySet, SetKeys(ps), p, sets, TargetSet(r));
    AddingIsExact(x.bySource, SourceKeys(ps, store), p, sources, SourcesOf(store, Paths(r.candidates)));
  }

  lemma UnindexingIsExact(x: Indexes, ps: map<Id, PolicyRecord>, store: Store, p: Id)
    requires Exact(x, ps, store) && p in ps
    ensures ExactBut(IndexedWithout(x, ps[p], store, p), ps, store, p, {}, {}, {}, {})
  {
    hide SourcesOf, Get, DropAll, Agrees, Add;
    var r := ps[p];
    var target := r.policy.semantics.target;
    DropAllAgrees(x.byPath, PathKeys(ps), p, Paths(r.candidates));
    DropIsDropAll(x.byRoute, target.route, p);
    DropAllAgrees(x.byRoute, RouteKeys(ps), p, {target.route});
    DropAllAgrees(x.bySource, SourceKeys(ps, store), p, SourcesOf(store, Paths(r.candidates)));
    if target.multipath.Some? {
      DropIsDropAll(x.bySet, target.multipath.value, p);
      DropAllAgrees(x.bySet, SetKeys(ps), p, {target.multipath.value});
    } else {
      assert SetKeys(ps)[p := {}] == SetKeys(ps);
    }
  }

  // Records that changed nothing their keys are made of.
  ghost predicate SameKeys(a: map<Id, PolicyRecord>, b: map<Id, PolicyRecord>)
  {
    && a.Keys == b.Keys
    && forall p :: p in a ==>
         && Paths(a[p].candidates) == Paths(b[p].candidates)
         && a[p].policy.semantics.target == b[p].policy.semantics.target
  }

  lemma SamePathKeys(a: map<Id, PolicyRecord>, b: map<Id, PolicyRecord>)
    requires SameKeys(a, b)
    ensures PathKeys(a) == PathKeys(b)
  {
    hide Paths;
  }

  lemma SameTargetKeys(a: map<Id, PolicyRecord>, b: map<Id, PolicyRecord>)
    requires SameKeys(a, b)
    ensures RouteKeys(a) == RouteKeys(b) && SetKeys(a) == SetKeys(b)
  {
    hide Paths;
  }

  lemma SameSourceKeys(a: map<Id, PolicyRecord>, b: map<Id, PolicyRecord>, store: Store)
    requires SameKeys(a, b)
    ensures SourceKeys(a, store) == SourceKeys(b, store)
  {
    hide Paths, SourcesOf;
  }

  lemma SameKeysExact(x: Indexes, a: map<Id, PolicyRecord>, b: map<Id, PolicyRecord>, store: Store)
    requires SameKeys(a, b) && Exact(x, a, store)
    ensures Exact(x, b, store)
  {
    hide Paths, SourcesOf, Agrees, PathKeys, RouteKeys, SetKeys, SourceKeys;
    SamePathKeys(a, b);
    SameTargetKeys(a, b);
    SameSourceKeys(a, b, store);
  }

  // A present policy set apart with its own keys; an absent one with none.
  lemma ExactButSelf(x: Indexes, ps: map<Id, PolicyRecord>, store: Store, p: Id)
    requires Exact(x, ps, store) && p in ps
    ensures ExactBut(x, ps, store, p, Paths(ps[p].candidates), {ps[p].policy.semantics.target.route}, TargetSet(ps[p]),
                     SourcesOf(store, Paths(ps[p].candidates)))
  {
    hide Paths, SourcesOf, Agrees, PathKeys, RouteKeys, SetKeys, SourceKeys, TargetSet;
    assert ps[p := ps[p]] == ps;
    PathKeysOfUpdate(ps, p, ps[p]);
    TargetKeysOfUpdate(ps, p, ps[p]);
    SourceKeysOfUpdate(ps, store, p, ps[p]);
  }

  lemma ExactButAbsent(x: Indexes, ps: map<Id, PolicyRecord>, store: Store, p: Id)
    requires Exact(x, ps, store) && p !in ps
    ensures ExactBut(x, ps, store, p, {}, {}, {}, {})
  {
    hide Paths, SourcesOf, Agrees, TargetSet;
    NewKeyAgrees(x.byPath, PathKeys(ps), p);
    NewKeyAgrees(x.byRoute, RouteKeys(ps), p);
    NewKeyAgrees(x.bySet, SetKeys(ps), p);
    NewKeyAgrees(x.bySource, SourceKeys(ps, store), p);
  }

  // ------------------------------------------------------------------------
  // Steps
  // ------------------------------------------------------------------------

  ghost predicate Unindexing(s: State, t: State)
  {
    t.index == s.index && t.evidence == s.evidence && SameKeys(s.policies, t.policies)
  }

  lemma UnindexingKeeps(s: State, t: State)
    requires IndexesExact(s) && Unindexing(s, t)
    ensures IndexesExact(t)
  {
    hide Exact, Paths;
    SameKeysExact(s.index, s.policies, t.policies, s.evidence);
  }

  ghost predicate KeepsKeys(r: PolicyRecord, r': PolicyRecord)
  {
    r'.candidates == r.candidates && r'.policy.semantics == r.policy.semantics
  }

  lemma RewriteUnindexing(s: State, t: State, p: Id, r: PolicyRecord)
    requires p in s.policies && t.index == s.index && t.evidence == s.evidence
    requires t.policies == s.policies[p := r] && KeepsKeys(s.policies[p], r)
    ensures Unindexing(s, t)
  {
    hide Paths;
  }

  lemma RelabelledKeys(r: PolicyRecord, lifecycle: Lifecycle, epoch: u64, revocation: Option<Revocation>)
    ensures KeepsKeys(r, Relabelled(r, lifecycle, epoch))
    ensures KeepsKeys(r, Relabelled(r, lifecycle, epoch).(revocation := revocation))
  {
  }

  lemma TransitionKeepsKeys(s: State, policy: Id, event: LifecycleEvent, ctx: Context)
    ensures Unindexing(s, TransitionStep(s, policy, event, ctx).state)
  {
    hide TargetRefusal, NextLifecycle, Unindexing, Relabelled, KeepsKeys;
    var t := TransitionStep(s, policy, event, ctx).state;
    RefusedKeepsKeys(s);
    if policy in s.policies {
      var r := s.policies[policy];
      RelabelledKeys(r, NeedsRevalidation, r.policy.epoch, None);
      var next := NextLifecycle(r.policy.lifecycle, event);
      if next.Some? {
        RelabelledKeys(r, next.value, s.epoch, None);
      }
      if t != s {
        RewriteUnindexing(s, t, policy, t.policies[policy]);
      }
    }
  }

  lemma RevokeKeepsKeys(s: State, policy: Id, reason: RevocationReason, detail: seq<byte>, ctx: Context, limits: Limits)
    ensures Unindexing(s, RevokeStep(s, policy, reason, detail, ctx, limits).state)
  {
    hide TargetRefusal, Unindexing, Relabelled, KeepsKeys;
    var t := RevokeStep(s, policy, reason, detail, ctx, limits).state;
    RefusedKeepsKeys(s);
    if policy in s.policies {
      var r := s.policies[policy];
      RelabelledKeys(r, Revoked, s.epoch,
        Some(Revocation(policy, r.policy.generation, s.authorityGeneration, s.epoch, ctx.publisher, reason, detail)));
      if t != s {
        RewriteUnindexing(s, t, policy, t.policies[policy]);
      }
    }
  }

  lemma SuppressionKeys(s: State, r: PolicyRecord, t: Ticket, minted: Minted, now: Ticks, limits: Limits)
    ensures KeepsKeys(r, SuppressionNoted(s, r, t, minted, now, limits))
  {
  }

  lemma MovedKeys(
    r: PolicyRecord, c: Candidate, t: Ticket, ctx: Context, s: State, minted: Minted, now: Ticks, limits: Limits)
    requires Next(r.preference.adaptation).Some? && Next(r.preference.transition).Some?
    ensures KeepsKeys(r, Committed(r, c, t, ctx, s.epoch, minted, now, limits))
    ensures KeepsKeys(r, RolledBack(r, c, ctx, s, minted, now, limits))
  {
    hide CommittedPreference, RestoredPreference, Armed, Anchored;
  }

  lemma CommitKeepsKeys(s: State, t: Ticket, ctx: Context, fingerprint: Id, minted: Minted, now: Ticks, limits: Limits)
    ensures Unindexing(s, CommitStep(s, t, ctx, fingerprint, minted, now, limits).state)
  {
    hide CommitRefusal, VerifyRefusal, Logged, AsksForMove, Committed, SuppressionNoted, Unindexing, KeepsKeys;
    var after := CommitStep(s, t, ctx, fingerprint, minted, now, limits).state;
    CommitNeedsPolicy(s, t, ctx, fingerprint);
    RefusedKeepsKeys(s);
    if CommitRefusal(s, t, ctx, fingerprint).None? {
      var r := s.policies[t.dependencies.policy];
      SuppressionKeys(s, r, t, minted, now, limits);
      VerifiedHasTarget(s, r, t.verdict, now, limits);
      if VerifyRefusal(s, r, t.verdict, now, limits).None? {
        MovedKeys(r, Find(r.candidates, t.verdict.target).value, t, ctx, s, minted, now, limits);
      }
      if after.policies == s.policies {
        assert s.policies[t.dependencies.policy := r] == s.policies;
        SameUnindexing(s, after);
      } else {
        RewriteUnindexing(s, after, t.dependencies.policy, after.policies[t.dependencies.policy]);
      }
    }
  }

  lemma SameUnindexing(s: State, t: State)
    requires t.index == s.index && t.evidence == s.evidence && t.policies == s.policies
    ensures Unindexing(s, t)
  {
  }

  lemma RollbackKeepsKeys(s: State, p: Id, ctx: Context, fingerprint: Id, minted: Minted, now: Ticks, limits: Limits)
    ensures Unindexing(s, RollbackStep(s, p, ctx, fingerprint, minted, now, limits).state)
  {
    hide RollbackRefusal, RestoreRefusal, Logged, RolledBack, Unindexing, KeepsKeys;
    var after := RollbackStep(s, p, ctx, fingerprint, minted, now, limits).state;
    RollbackNeedsPolicy(s, p, ctx, fingerprint);
    RefusedKeepsKeys(s);
    if RollbackRefusal(s, p, ctx, fingerprint).None? {
      var r := s.policies[p];
      RestoreHasTarget(r);
      if RestoreRefusal(r).None? {
        MovedKeys(r, Find(r.candidates, r.stable.path).value, RejectedTicket(NO_CHANGE), ctx, s, minted, now, limits);
        RewriteUnindexing(s, after, p, after.policies[p]);
      } else {
        SameUnindexing(s, after);
      }
    }
  }

  lemma AdvanceKeepsKeys(s: State)
    ensures Unindexing(s, AdvanceEpochStep(s).state)
  {
    hide Paths, Quiesced;
    forall p | p in s.policies
      ensures KeepsKeys(s.policies[p], Quiesced(s.policies[p]))
    {
      QuiescedKeys(s.policies[p]);
    }
  }

  lemma QuiescedKeys(r: PolicyRecord)
    ensures KeepsKeys(r, Quiesced(r))
  {
  }

  lemma RefusedKeepsKeys(s: State)
    ensures Unindexing(s, s)
  {
  }

  lemma RecordedKeepsIndexed(s: State, attempt: Id, fingerprint: Id, outcome: Outcome, limits: Limits)
    ensures IndexesExact(Recorded(s, attempt, fingerprint, outcome, limits)) <==> IndexesExact(s)
  {
    hide Exact, Logged;
  }

  function OwnPaths(s: State, p: Id): set<Id> { if p in s.policies then Paths(s.policies[p].candidates) else {} }

  lemma ReindexIsExact(s: State, p: Id, r: PolicyRecord, limits: Limits)
    requires IndexesExact(s) && OwnPaths(s, p) <= Paths(r.candidates)
    requires p in s.policies ==> s.policies[p].policy.semantics.target == r.policy.semantics.target
    ensures IndexesExact(Reindexed(s.(policies := s.policies[p := r]), p, limits))
            <==> Room(s.index.byPath, r.candidates, p, OwnPaths(s, p), PathCap(limits))
  {
    hide Agrees, Paths, IndexedWith, PathCap, Room;
    var x, ps, store := s.index, s.policies, s.evidence;
    if p in ps {
      ExactButSelf(x, ps, store, p);
      SourcesGrowWithPaths(store, Paths(ps[p].candidates), Paths(r.candidates));
      IndexingIsExact(x, ps, store, p, r, Paths(ps[p].candidates), {ps[p].policy.semantics.target.route},
                      TargetSet(ps[p]), SourcesOf(store, Paths(ps[p].candidates)), PathCap(limits));
    } else {
      ExactButAbsent(x, ps, store, p);
      IndexingIsExact(x, ps, store, p, r, {}, {}, {}, {}, PathCap(limits));
    }
  }

  lemma SourcesGrowWithPaths(store: Store, a: set<Id>, b: set<Id>)
    requires a <= b
    ensures SourcesOf(store, a) <= SourcesOf(store, b)
  {
  }

  // Creation adds no path.
  lemma CreateIndexed(s: State, q: CreateRequest, id: Id, now: Ticks, limits: Limits)
    requires IndexesExact(s)
    ensures IndexesExact(CreateStep(s, q, id, now, limits).state)
  {
    hide CreateRefusal, Recorded, Exact, IndexedWith, Paths;
    RecordedKeepsIndexed(s, q.context.attempt, q.fingerprint, ALREADY_EXISTS, limits);
    RecordedKeepsIndexed(s, q.context.attempt, q.fingerprint, RESOURCE_LIMIT, limits);
    var r := if id in s.policies then s.policies[id] else NewRecord(NewPolicy(s, q, id, now));
    var named := s.(names := s.names[q.name := id]);
    NoPaths();
    if id in s.policies {
      assert s.policies[id := r] == s.policies;
    }
    ReindexIsExact(named, id, r, limits);
    RecordedKeepsIndexed(Reindexed(named.(policies := s.policies[id := r]), id, limits), q.context.attempt,
                         q.fingerprint, POLICY_CREATED, limits);
  }

  lemma NoPaths()
    ensures Paths([]) == {}
  {
  }

  lemma NamedIndexed(s: State, t: State)
    requires IndexesExact(s) && t.index == s.index && t.policies == s.policies && t.evidence == s.evidence
    ensures IndexesExact(t)
  {
    hide Exact;
  }

  function LastPath(cs: seq<Candidate>): Id
    requires cs != []
  {
    PathOf(cs[|cs| - 1])
  }

  // An update takes the policy out of the index and puts it back, path by path.
  predicate UpdateHasRoom(s: State, q: UpdateRequest, limits: Limits)
  {
    q.policy in s.policies ==>
      var r, index := s.policies[q.policy], s.index.byPath;
      || r.policy.semantics.target != q.semantics.target || r.candidates == []
      || |index| - (if ListedAlone(index, LastPath(r.candidates), q.policy) then 1 else 0) < PathCap(limits)
  }

  // An accepted update keeps the indexes exact precisely when it discards the
  // bindings, there are none, or the path index is still below its cap once the
  // policy is out of it and all its paths but the last are back.
  lemma UpdateNeedsRoom(s: State, q: UpdateRequest, now: Ticks, limits: Limits)
    requires StateOk(s) && IndexesExact(s) && UpdateRefusal(s, q, limits).None?
    ensures IndexesExact(UpdateStep(s, q, now, limits).state) <==> UpdateHasRoom(s, q, limits)
  {
    hide UpdateRefusal, Recorded, Exact, Agrees, IndexedWith, IndexedWithout, Paths, PathCap, Room, UpdateHasRoom,
         StateOk;
    UpdateNeedsPolicy(s, q, limits);
    var r := Updated(s.policies[q.policy], q, s.epoch, now);
    var bare := Unindexed(s, q.policy);
    NoPaths();
    UnindexingIsExact(s.index, s.policies, s.evidence, q.policy);
    IndexingIsExact(bare.index, s.policies, s.evidence, q.policy, r, {}, {}, {}, {}, PathCap(limits));
    var updated := bare.(policies := s.policies[q.policy := r]);
    RecordedKeepsIndexed(Reindexed(updated, q.policy, limits), q.context.attempt, q.fingerprint, POLICY_UPDATED,
                         limits);
    RoomAfterUpdate(s, q, now, limits);
  }

  lemma RoomAfterUpdate(s: State, q: UpdateRequest, now: Ticks, limits: Limits)
    requires StateOk(s) && IndexesExact(s) && q.policy in s.policies
    requires Next(s.policies[q.policy].policy.generation).Some?
    ensures UpdateHasRoom(s, q, limits) <==>
              Room(Unindexed(s, q.policy).index.byPath, Updated(s.policies[q.policy], q, s.epoch, now).candidates,
                   q.policy, {}, PathCap(limits))
  {
    hide Agrees, Paths, PathCap, Room, DropAll, ListedAlone, Sorted, Semantics.FirstDefect;
    var r := s.policies[q.policy];
    NoPaths();
    if r.policy.semantics.target != q.semantics.target || r.candidates == [] {
      NoRoomNeeded(Unindexed(s, q.policy).index.byPath, q.policy, PathCap(limits));
    } else {
      RoomBack(s.index.byPath, PathKeys(s.policies), q.policy, r.candidates, PathCap(limits));
    }
  }

  // Out of the index and back, path by path.
  lemma RoomBack(index: Index, keys: Keys, p: Id, cs: seq<Candidate>, cap: nat)
    requires Agrees(index, keys) && p in keys && keys[p] == Paths(cs) && Sorted(cs) && cs != []
    ensures Room(DropAll(index, Paths(cs), p), cs, p, {}, cap) <==>
              |index| - (if ListedAlone(index, LastPath(cs), p) then 1 else 0) < cap
  {
    hide Agrees, Paths, Room, AddAll, DropAll, ListedAlone, Sorted;
    var init := cs[..|cs| - 1];
    PathsStep(cs);
    LastIsFresh(cs);
    RoomForLast(DropAll(index, Paths(cs), p), cs, p, {}, cap);
    BeforeTheLast(index, keys, p, Paths(init), LastPath(cs));
  }

  lemma NoRoomNeeded(index: Index, p: Id, cap: nat)
    ensures Room(index, [], p, {}, cap)
  {
  }

  lemma LastIsFresh(cs: seq<Candidate>)
    requires Sorted(cs) && cs != []
    ensures LastPath(cs) !in Paths(cs[..|cs| - 1])
  {
    forall c | c in cs[..|cs| - 1]
      ensures PathOf(c) != LastPath(cs)
    {
      var i :| 0 <= i < |cs| - 1 && cs[i] == c;
      LessIrreflexive(PathOf(c));
    }
  }

  // When the other policies alone fill the index, the update loses every path.
  lemma FullIndexLosesPolicy(s: State, q: UpdateRequest, now: Ticks, limits: Limits, path: Id)
    requires IndexesExact(s) && UpdateRefusal(s, q, limits).None?
    requires |Unindexed(s, q.policy).index.byPath| >= PathCap(limits)
    ensures q.policy !in Get(UpdateStep(s, q, now, limits).state.index.byPath, path)
  {
    hide UpdateRefusal, Logged, PathCap, Unindexed, Updated;
    UpdateNeedsPolicy(s, q, limits);
    UnindexedIsGone(s, q.policy, path);
  }

  lemma UnindexedIsGone(s: State, p: Id, path: Id)
    requires IndexesExact(s) && p in s.policies
    ensures p !in Get(Unindexed(s, p).index.byPath, path)
  {
    hide DropAll, Paths;
    DropAllAgrees(s.index.byPath, PathKeys(s.policies), p, Paths(s.policies[p].candidates));
    var keys := PathKeys(s.policies)[p := {}];
    assert p in Get(Unindexed(s, p).index.byPath, path) <==> p in keys && path in keys[p];
  }

  // ------------------------------------------------------------------------
  // Notifications
  // ------------------------------------------------------------------------

  lemma {:induction false} ReplacedPaths(cs: seq<Candidate>, c: Candidate)
    requires Position(cs, PathOf(c)) < |cs|
    ensures Paths(cs[Position(cs, PathOf(c)) := c]) == Paths(cs)
  {
    var i := Position(cs, PathOf(c));
    var after := cs[i := c];
    forall k
      ensures k in Paths(after) <==> k in Paths(cs)
    {
      if k in Paths(cs) {
        var j :| 0 <= j < |cs| && PathOf(cs[j]) == k;
        assert after[j] in after && PathOf(after[j]) == k;
      }
      if k in Paths(after) {
        var j :| 0 <= j < |after| && PathOf(after[j]) == k;
        assert cs[j] in cs && PathOf(cs[j]) == k;
      }
    }
  }

  lemma RebindingIndexed(s: State, n: Notification, limits: Limits)
    requires IndexesExact(s) && n.policy in s.policies && CandidateOf(s, n.policy, n.binding.path).Some?
    ensures IndexesExact(Bound(s, n, limits))
  {
    hide Rebound, Exact, Paths, Find;
    var r := s.policies[n.policy];
    var found := Find(r.candidates, n.binding.path);
    ReboundKeepsPath(found.value.binding, n);
    FoundPosition(r.candidates, n.binding.path);
    ReplacedPaths(r.candidates, found.value.(binding := Rebound(found.value.binding, n)));
    UnindexingKeeps(s, Bound(s, n, limits));
  }

  lemma DeclaringIndexed(s: State, n: Notification, limits: Limits)
    requires IndexesExact(s) && n.policy in s.policies && CandidateOf(s, n.policy, n.binding.path).None?
    requires n.event.DeclareCandidate?
    ensures IndexesExact(Bound(s, n, limits)) <==> |s.index.byPath| < PathCap(limits)
  {
    hide Inserted, Paths, Find, Reindexed, PathCap, Room, Agrees;
    var r := s.policies[n.policy];
    var c := Candidate(n.binding, 0);
    InsertedPaths(r.candidates, c);
    ReindexIsExact(s, n.policy, r.(candidates := Inserted(r.candidates, c)), limits);
    KeysOfSelf(s.policies, n.policy);
    FindIsPaths(r.candidates, n.binding.path);
    RoomForOne(s.index.byPath, PathKeys(s.policies), Inserted(r.candidates, c), n.policy, Paths(r.candidates),
               n.binding.path, PathCap(limits));
  }

  lemma FindIsPaths(cs: seq<Candidate>, path: Id)
    ensures Find(cs, path).None? <==> path !in Paths(cs)
  {
  }

  lemma KeysOfSelf(ps: map<Id, PolicyRecord>, p: Id)
    requires p in ps
    ensures PathKeys(ps)[p := Paths(ps[p].candidates)] == PathKeys(ps)
  {
    hide Paths;
  }

  lemma FoundPosition(cs: seq<Candidate>, path: Id)
    ensures Find(cs, path).Some? ==> Position(cs, path) < |cs| && PathOf(Find(cs, path).value) == path
  {
  }

  lemma InvalidatedUnindexing(s: State, path: Id)
    ensures Unindexing(s, Invalidated(s, path)) && Unindexing(Invalidated(s, path), s)
  {
    hide Paths, Find, Bumped;
    var t := Invalidated(s, path);
    forall p | p in s.policies
      ensures Paths(t.policies[p].candidates) == Paths(s.policies[p].candidates)
      ensures t.policies[p].policy == s.policies[p].policy
    {
      BumpedPaths(s.policies[p], path);
    }
  }

  lemma InvalidatedIndexed(s: State, path: Id)
    ensures IndexesExact(Invalidated(s, path)) <==> IndexesExact(s)
  {
    hide Exact, Invalidated, Unindexing;
    InvalidatedUnindexing(s, path);
    if IndexesExact(s) {
      UnindexingKeeps(s, Invalidated(s, path));
    }
    if IndexesExact(Invalidated(s, path)) {
      UnindexingKeeps(Invalidated(s, path), s);
    }
  }

  lemma BumpedPaths(r: PolicyRecord, path: Id)
    ensures Paths(Bumped(r, path).candidates) == Paths(r.candidates) && Bumped(r, path).policy == r.policy
  {
    hide Paths;
    var found := Find(r.candidates, path);
    if found.Some? {
      ReplacedPaths(r.candidates, found.value.(watermark := WrapAdd(found.value.watermark, 1)));
    }
  }

  // The notification declares a path the policy does not bind yet.
  predicate DeclaresPath(s: State, n: Notification, ctx: Context, limits: Limits)
  {
    NoteApplies(s, n, ctx, limits) && n.event.DeclareCandidate? && CandidateOf(s, n.policy, n.binding.path).None?
  }

  // One notification keeps the indexes exact unless it declares a new path to a
  // full path index; in that case, and only then, the path is bound and not found.
  lemma DeclarationNeedsRoom(s: State, n: Notification, ctx: Context, limits: Limits)
    requires IndexesExact(s)
    ensures IndexesExact(NoteStep(s, n, ctx, limits).state)
            <==> (DeclaresPath(s, n, ctx, limits) ==> |s.index.byPath| < PathCap(limits))
    ensures DeclaresPath(s, n, ctx, limits) ==>
      (Misses(NoteStep(s, n, ctx, limits).state, n.policy, n.binding.path) <==> |s.index.byPath| >= PathCap(limits))
  {
    hide NoteRefusal, EventRefusal, Bound, Invalidated, Exact, PathCap, Misses;
    NoteNeedsPolicy(s, n, ctx);
    var t := NoteStep(s, n, ctx, limits).state;
    if NoteApplies(s, n, ctx, limits) {
      InvalidatedIndexed(Bound(s, n, limits), n.binding.path);
      if CandidateOf(s, n.policy, n.binding.path).Some? {
        RebindingIndexed(s, n, limits);
      } else if n.event.DeclareCandidate? {
        DeclaringIndexed(s, n, limits);
        DeclaredIsBound(s, n, limits);
        if |s.index.byPath| < PathCap(limits) {
          ExactMissesNothing(t, n.policy, n.binding.path);
        }
      } else {
        assert Bound(s, n, limits) == s by { UnknownIsUnbound(s, n, limits); }
      }
    }
  }

  // The policy binds the path and invalidations of it do not reach the policy.
  ghost predicate Misses(s: State, p: Id, path: Id) { path in OwnPaths(s, p) && p !in Get(s.index.byPath, path) }

  lemma ExactMissesNothing(s: State, p: Id, path: Id)
    ensures IndexesExact(s) ==> !Misses(s, p, path)
  {
    if IndexesExact(s) && p in s.policies {
      assert p in Get(s.index.byPath, path) <==> p in PathKeys(s.policies) && path in PathKeys(s.policies)[p];
    }
  }

  lemma UnknownIsUnbound(s: State, n: Notification, limits: Limits)
    requires n.policy in s.policies && CandidateOf(s, n.policy, n.binding.path).None? && !n.event.DeclareCandidate?
    ensures Bound(s, n, limits) == s
  {
  }

  lemma DeclaredIsBound(s: State, n: Notification, limits: Limits)
    requires IndexesExact(s) && n.policy in s.policies && CandidateOf(s, n.policy, n.binding.path).None?
    requires n.event.DeclareCandidate?
    ensures |s.index.byPath| >= PathCap(limits) ==> Misses(Bound(s, n, limits), n.policy, n.binding.path)
  {
    hide PathCap;
    var r := s.policies[n.policy];
    InsertedPaths(r.candidates, Candidate(n.binding, 0));
    ExactMissesNothing(s, n.policy, n.binding.path);
    assert n.policy in Get(s.index.byPath, n.binding.path) <==>
      n.policy in PathKeys(s.policies) && n.binding.path in PathKeys(s.policies)[n.policy];
  }

  // Once the index is full, no notification finds a missed path again.
  ghost predicate FullAndMisses(s: State, p: Id, path: Id, cap: nat) { Misses(s, p, path) && |s.index.byPath| >= cap }

  lemma NoteKeepsMissing(s: State, n: Notification, ctx: Context, limits: Limits, p: Id, path: Id)
    requires FullAndMisses(s, p, path, PathCap(limits))
    ensures FullAndMisses(NoteStep(s, n, ctx, limits).state, p, path, PathCap(limits))
  {
    hide NoteRefusal, EventRefusal, Inserted, Rebound, Find, Invalidated, PathCap, Paths, Unindexing;
    NoteNeedsPolicy(s, n, ctx);
    if NoteApplies(s, n, ctx, limits) {
      var r := s.policies[n.policy];
      var found := Find(r.candidates, n.binding.path);
      FoundPosition(r.candidates, n.binding.path);
      InsertedPaths(r.candidates, Candidate(n.binding, 0));
      if found.Some? {
        ReboundKeepsPath(found.value.binding, n);
        ReplacedPaths(r.candidates, found.value.(binding := Rebound(found.value.binding, n)));
      }
      assert FullAndMisses(Bound(s, n, limits), p, path, PathCap(limits));
      InvalidatedUnindexing(Bound(s, n, limits), n.binding.path);
      MissingIsKept(Bound(s, n, limits), Invalidated(Bound(s, n, limits), n.binding.path), p, path);
    }
  }

  lemma MissingIsKept(s: State, t: State, p: Id, path: Id)
    requires Unindexing(s, t) && Misses(s, p, path)
    ensures Misses(t, p, path) && t.index == s.index
  {
    hide Paths;
  }

  lemma {:induction false} NotesKeepMissing(
    s: State, ns: seq<Notification>, ctx: Context, limits: Limits, p: Id, path: Id)
    requires FullAndMisses(s, p, path, PathCap(limits))
    ensures FullAndMisses(NotesStep(s, ns, ctx, limits).state, p, path, PathCap(limits))
    decreases |ns|
  {
    hide NoteStep, FullAndMisses, PathCap;
    if ns != [] {
      NoteKeepsMissing(s, ns[0], ctx, limits, p, path);
      if NoteStep(s, ns[0], ctx, limits).outcome == POLICY_UPDATED {
        NotesKeepMissing(NoteStep(s, ns[0], ctx, limits).state, ns[1..], ctx, limits, p, path);
      }
    }
  }

  // Every new path of the batch is declared below the cap.
  predicate NotesHaveRoom(s: State, ns: seq<Notification>, ctx: Context, limits: Limits)
    decreases |ns|
  {
    ns != [] ==>
      && (DeclaresPath(s, ns[0], ctx, limits) ==> |s.index.byPath| < PathCap(limits))
      && (NoteStep(s, ns[0], ctx, limits).outcome == POLICY_UPDATED ==>
            NotesHaveRoom(NoteStep(s, ns[0], ctx, limits).state, ns[1..], ctx, limits))
  }

  lemma {:induction false} NotesNeedRoom(s: State, ns: seq<Notification>, ctx: Context, limits: Limits)
    requires IndexesExact(s)
    ensures IndexesExact(NotesStep(s, ns, ctx, limits).state) <==> NotesHaveRoom(s, ns, ctx, limits)
    decreases |ns|
  {
    hide NoteStep, IndexesExact, PathCap, DeclaresPath, FullAndMisses;
    if ns != [] {
      var first := NoteStep(s, ns[0], ctx, limits);
      DeclarationNeedsRoom(s, ns[0], ctx, limits);
      if DeclaresPath(s, ns[0], ctx, limits) && |s.index.byPath| >= PathCap(limits) {
        DeclarationMisses(s, ns[0], ctx, limits);
        if first.outcome == POLICY_UPDATED {
          NotesKeepMissing(first.state, ns[1..], ctx, limits, ns[0].policy, ns[0].binding.path);
        }
        MissingIsInexact(NotesStep(s, ns, ctx, limits).state, ns[0].policy, ns[0].binding.path, limits);
      } else if first.outcome == POLICY_UPDATED {
        NotesNeedRoom(first.state, ns[1..], ctx, limits);
      }
    }
  }

  lemma DeclarationMisses(s: State, n: Notification, ctx: Context, limits: Limits)
    requires IndexesExact(s) && DeclaresPath(s, n, ctx, limits) && |s.index.byPath| >= PathCap(limits)
    ensures FullAndMisses(NoteStep(s, n, ctx, limits).state, n.policy, n.binding.path, PathCap(limits))
  {
    hide NoteRefusal, EventRefusal, Exact, PathCap, Inserted, Misses;
    DeclaredIsBound(s, n, limits);
  }

  lemma MissingIsInexact(s: State, p: Id, path: Id, limits: Limits)
    ensures FullAndMisses(s, p, path, PathCap(limits)) ==> !IndexesExact(s)
  {
    ExactMissesNothing(s, p, path);
  }

  lemma UpstreamNeedsRoom(s: State, ns: seq<Notification>, ctx: Context, fingerprint: Id, limits: Limits)
    requires IndexesExact(s)
    ensures IndexesExact(UpstreamStep(s, ns, ctx, fingerprint, limits).state)
            <==> (UpstreamRefusal(s, ns, ctx, fingerprint, limits).None? ==> NotesHaveRoom(s, ns, ctx, limits))
  {
    hide NotesStep, Recorded, UpstreamRefusal, IndexesExact, NotesHaveRoom;
    NotesNeedRoom(s, ns, ctx, limits);
    RecordedKeepsIndexed(NotesStep(s, ns, ctx, limits).state, ctx.attempt, fingerprint, POLICY_UPDATED, limits);
  }

  // ------------------------------------------------------------------------
  // Evidence
  // ------------------------------------------------------------------------

  // One publication against the source index.
  function SourceIndexed(index: Index, byPath: Index, p: Publication): Index
  {
    if Get(byPath, p.path) == {} then index
    else index[p.source := Get(index, p.source) + Get(byPath, p.path)]
  }

  lemma AppliedSources(store: Store, p: Publication, now: Ticks, a: Admission, paths: set<Id>)
    requires p.value.Metric?
    ensures SourcesOf(Applied(store, p, now, a), paths)
         == SourcesOf(store, paths) + (if p.path in paths then {p.source} else {})
  {
    hide NextSeries;
    var after := Applied(store, p, now, a);
    assert after.series.Keys == store.series.Keys + {p.Slot()};
  }

  lemma SourceStep(
    index: Index, byPath: Index, ps: map<Id, PolicyRecord>, store: Store, p: Publication, now: Ticks, a: Admission)
    requires p.value.Metric? && Agrees(byPath, PathKeys(ps)) && Agrees(index, SourceKeys(ps, store))
    ensures Agrees(SourceIndexed(index, byPath, p), SourceKeys(ps, Applied(store, p, now, a)))
  {
    hide Paths, SourcesOf, Applied;
    var after, before := SourceIndexed(index, byPath, p), SourceKeys(ps, store);
    var later := SourceKeys(ps, Applied(store, p, now, a));
    forall k, q
      ensures q in Get(after, k) <==> q in later && k in later[q]
    {
      assert q in Get(index, k) <==> q in before && k in before[q];
      assert q in Get(byPath, p.path) <==> q in PathKeys(ps) && p.path in PathKeys(ps)[q];
      if q in ps {
        AppliedSources(store, p, now, a, Paths(ps[q].candidates));
      }
    }
  }

  lemma {:induction false} PublishedSources(
    index: Index, byPath: Index, ps: map<Id, PolicyRecord>, store: Store, batch: seq<Publication>, nows: seq<Ticks>,
    a: Admission)
    requires |nows| == |batch| && (forall i :: 0 <= i < |batch| ==> batch[i].value.Metric?)
    requires Agrees(byPath, PathKeys(ps)) && Agrees(index, SourceKeys(ps, store))
    ensures Agrees(IndexSources(index, byPath, batch), SourceKeys(ps, ApplyAll(store, batch, nows, a)))
    decreases |batch|
  {
    hide Agrees, SourcesOf, Applied, Paths;
    if batch != [] {
      SourceStep(index, byPath, ps, store, batch[0], nows[0], a);
      PublishedSources(SourceIndexed(index, byPath, batch[0]), byPath, ps, Applied(store, batch[0], nows[0], a),
                       batch[1..], nows[1..], a);
    }
  }

  // An accepted batch keeps the source index exact as long as the evidence
  // generation is not exhausted.
  lemma PublishIndexed(s: State, batch: seq<Timed>, ctx: Context, fingerprint: Id, limits: Limits)
    requires IndexesExact(s) && Next(s.evidenceGeneration).Some?
    ensures IndexesExact(PublishStep(s, batch, ctx, fingerprint, limits).state)
  {
    hide Agrees, ApplyAll, IndexSources, Recorded, Validate, CallerRefusal, Replay;
    if PublishRefusal(s, batch, ctx, fingerprint, limits).None? {
      var a := AdmissionOf(s, ctx.publisher, limits);
      ValidatedIsWellFormed(s.evidence, map[], Samples(batch), a);
      PublishedSources(s.index.bySource, s.index.byPath, s.policies, s.evidence, Samples(batch), Readings(batch), a);
      var published := s.(
        evidence := ApplyAll(s.evidence, Samples(batch), Readings(batch), a),
        evidenceGeneration := Next(s.evidenceGeneration).value,
        index := s.index.(bySource := IndexSources(s.index.bySource, s.index.byPath, Samples(batch))));
      RecordedKeepsIndexed(published, ctx.attempt, fingerprint, POLICY_UPDATED, limits);
    }
  }

  lemma AgreeingIsUnique(a: Index, b: Index, keys: Keys)
    requires Agrees(a, keys) && Agrees(b, keys)
    ensures a == b
  {
    forall k
      ensures Get(a, k) == Get(b, k)
    {
      forall p
        ensures p in Get(a, k) <==> p in Get(b, k)
      {
        assert p in Get(a, k) <==> p in keys && k in keys[p];
        assert p in Get(b, k) <==> p in keys && k in keys[p];
      }
    }
    forall k
      ensures k in a <==> k in b
      ensures k in a ==> a[k] == b[k]
    {
      assert Get(a, k) == Get(b, k);
      if k in a { assert a[k] == Get(a, k) && a[k] != {}; }
      if k in b { assert b[k] == Get(b, k) && b[k] != {}; }
    }
    assert a.Keys == b.Keys;
  }

  // Every published source already lists the policies that bind its path.
  predicate SourcesKnown(index: Index, byPath: Index, batch: seq<Publication>)
  {
    forall i :: 0 <= i < |batch| ==> Get(byPath, batch[i].path) <= Get(index, batch[i].source)
  }

  lemma {:induction false} SourcesOnlyGrow(index: Index, byPath: Index, batch: seq<Publication>, k: Id)
    ensures Get(index, k) <= Get(IndexSources(index, byPath, batch), k)
    decreases |batch|
  {
    if batch != [] {
      SourcesOnlyGrow(SourceIndexed(index, byPath, batch[0]), byPath, batch[1..], k);
    }
  }

  lemma {:induction false} KnownSourcesAddNothing(index: Index, byPath: Index, batch: seq<Publication>)
    ensures IndexSources(index, byPath, batch) == index <==> SourcesKnown(index, byPath, batch)
    decreases |batch|
  {
    if batch != [] {
      var next := SourceIndexed(index, byPath, batch[0]);
      KnownSourcesAddNothing(next, byPath, batch[1..]);
      SourcesOnlyGrow(next, byPath, batch[1..], batch[0].source);
      if Get(byPath, batch[0].path) <= Get(index, batch[0].source) {
        if Get(byPath, batch[0].path) != {} {
          assert batch[0].source in index;
          assert Get(index, batch[0].source) + Get(byPath, batch[0].path) == index[batch[0].source];
        }
        assert next == index;
        assert SourcesKnown(index, byPath, batch) <==> SourcesKnown(index, byPath, batch[1..]);
      }
    }
  }

  // An accepted batch whose generation step fails has stored its samples but
  // not indexed their sources: the index is still exact precisely when every
  // published source already listed the policies that bind its path.
  lemma ExhaustedPublishIndexes(s: State, batch: seq<Timed>, ctx: Context, fingerprint: Id, limits: Limits)
    requires IndexesExact(s) && PublishRefusal(s, batch, ctx, fingerprint, limits).None?
    requires Next(s.evidenceGeneration).None?
    ensures IndexesExact(PublishStep(s, batch, ctx, fingerprint, limits).state)
            <==> SourcesKnown(s.index.bySource, s.index.byPath, Samples(batch))
  {
    hide Agrees, ApplyAll, IndexSources, Validate, CallerRefusal, Replay, SourcesKnown;
    var a := AdmissionOf(s, ctx.publisher, limits);
    ValidatedIsWellFormed(s.evidence, map[], Samples(batch), a);
    var after := ApplyAll(s.evidence, Samples(batch), Readings(batch), a);
    PublishedSources(s.index.bySource, s.index.byPath, s.policies, s.evidence, Samples(batch), Readings(batch), a);
    KnownSourcesAddNothing(s.index.bySource, s.index.byPath, Samples(batch));
    if Agrees(s.index.bySource, SourceKeys(s.policies, after)) {
      AgreeingIsUnique(s.index.bySource, IndexSources(s.index.bySource, s.index.byPath, Samples(batch)),
                       SourceKeys(s.policies, after));
    }
  }

  // ------------------------------------------------------------------------
  // Recovery
  // ------------------------------------------------------------------------

  ghost function Restrict(ps: map<Id, PolicyRecord>, ids: seq<Id>): map<Id, PolicyRecord>
  {
    map id | id in ps && id in ids :: ps[id]
  }

  lemma RestrictGrows(ps: map<Id, PolicyRecord>, ids: seq<Id>, id: Id)
    requires id in ps
    ensures Restrict(ps, ids + [id]) == Restrict(ps, ids)[id := ps[id]]
  {
  }

  lemma {:induction false} ReindexAllIndexed(s: State, ids: seq<Id>, limits: Limits)
    requires NoDuplicates(ids) && (forall i :: 0 <= i < |ids| ==> ids[i] in s.policies)
    requires (forall p :: p in s.policies ==> s.policies[p].candidates == [])
    requires s.index == Indexes(map[], map[], map[], map[]) && s.evidence.series == map[]
    ensures Exact(ReindexedAll(s, ids, limits).index, Restrict(s.policies, ids), s.evidence)
  {
    hide Exact, ExactBut, IndexedWith, Paths, SourcesOf, PathCap, Room, TargetSet;
    if ids == [] {
      NothingIndexed(s.evidence);
      assert Restrict(s.policies, []) == map[];
    } else {
      var init, id := ids[..|ids| - 1], ids[|ids| - 1];
      var before := Restrict(s.policies, init);
      ReindexAllIndexed(s, init, limits);
      ReindexKeeps(s, init, limits);
      ExactButAbsent(ReindexedAll(s, init, limits).index, before, s.evidence, id);
      NoPaths();
      NoRoomNeeded(ReindexedAll(s, init, limits).index.byPath, id, PathCap(limits));
      IndexingIsExact(ReindexedAll(s, init, limits).index, before, s.evidence, id, s.policies[id], {}, {}, {}, {},
                      PathCap(limits));
      assert ids == init + [id];
      RestrictGrows(s.policies, init, id);
    }
  }

  lemma NothingIndexed(store: Store)
    ensures Exact(Indexes(map[], map[], map[], map[]), map[], store)
  {
  }

  lemma RecoveredIndexed(d: DurableState, now: Ticks, limits: Limits)
    requires RecoveryRefusal(d, limits).None?
    requires forall p :: p in RestoredRecords(d, now, limits) ==> RestoredRecords(d, now, limits)[p].candidates == []
    ensures IndexesExact(Recovered(d, now, limits))
  {
    hide RestoredRecords, RestoreNames, RestoreRevocations, Exact, Reindexed, Paths;
    var records := RestoredRecords(d, now, limits);
    var bare := Bare(d, now, limits);
    var ids := InOrderOf(records.Keys);
    ReindexKeeps(bare, ids, limits);
    ReindexAllIndexed(bare, ids, limits);
    assert Restrict(records, ids) == records;
  }

  lemma RestartIndexed(s: State, saved: SaveTimes, now: Ticks, limits: Limits)
    requires Keyed(s) && IndexesExact(s)
    ensures IndexesExact(RestartStep(s, saved, now, limits).state)
  {
    hide BuildDurable, RestoredRecords, Recovered, RecoveryRefusal, IndexesExact;
    var d := Stripped(BuildDurable(s, saved));
    if RecoveryRefusal(d, limits).None? {
      RestartKeys(s, saved, now, limits);
      forall p | p in RestoredRecords(d, now, limits)
        ensures RestoredRecords(d, now, limits)[p].candidates == []
      {
        RestartAt(s, saved, now, limits, p);
      }
      RecoveredIndexed(d, now, limits);
    }
  }

  // ------------------------------------------------------------------------
  // Every reachable state
  // ------------------------------------------------------------------------

  // A caller can tell before the step: an update and a declaration find room in
  // the path index, and a batch published at the last evidence generation brings
  // no source a policy would have to be listed under.
  ghost predicate StepHasRoom(s: State, e: Event, limits: Limits)
  {
    match e.op
    case Update(q) => UpdateRefusal(s, q, limits).None? ==> UpdateHasRoom(s, q, limits)
    case Upstream(notes, ctx, fingerprint) =>
      UpstreamRefusal(s, notes, ctx, fingerprint, limits).None? ==> NotesHaveRoom(s, notes, ctx, limits)
    case Publish(batch, ctx, fingerprint) =>
      Next(s.evidenceGeneration).None? && PublishRefusal(s, batch, ctx, fingerprint, limits).None? ==>
        SourcesKnown(s.index.bySource, s.index.byPath, Samples(batch))
    case _ => true
  }

  lemma PublishNeedsKnown(s: State, batch: seq<Timed>, ctx: Context, fingerprint: Id, limits: Limits)
    requires IndexesExact(s)
    ensures IndexesExact(PublishStep(s, batch, ctx, fingerprint, limits).state)
            <==> (Next(s.evidenceGeneration).None? && PublishRefusal(s, batch, ctx, fingerprint, limits).None? ==>
                    SourcesKnown(s.index.bySource, s.index.byPath, Samples(batch)))
  {
    hide IndexesExact, SourcesKnown, PublishRefusal, ApplyAll, IndexSources, Recorded;
    if Next(s.evidenceGeneration).Some? {
      PublishIndexed(s, batch, ctx, fingerprint, limits);
    } else if PublishRefusal(s, batch, ctx, fingerprint, limits).None? {
      ExhaustedPublishIndexes(s, batch, ctx, fingerprint, limits);
    }
  }

  lemma UpdateIndexed(s: State, q: UpdateRequest, now: Ticks, limits: Limits)
    requires StateOk(s) && IndexesExact(s)
    ensures IndexesExact(UpdateStep(s, q, now, limits).state)
            <==> (UpdateRefusal(s, q, limits).None? ==> UpdateHasRoom(s, q, limits))
  {
    hide IndexesExact, UpdateHasRoom, UpdateRefusal, StateOk, Recorded, Unindexed, Reindexed, Updated;
    if UpdateRefusal(s, q, limits).None? {
      UpdateNeedsRoom(s, q, now, limits);
    }
  }

  // From a state whose indexes agree with a scan, every step keeps them so
  // exactly when it has room.
  lemma StepIsExact(s: State, e: Event, limits: Limits)
    requires StateOk(s) && IndexesExact(s)
    ensures IndexesExact(After(s, e, limits)) <==> StepHasRoom(s, e, limits)
  {
    hide RegisterStep, FenceStep, AdvanceEpochStep, CreateStep, UpdateStep, TransitionStep, RevokeStep, UpstreamStep,
         PublishStep, CommitStep, RollbackStep, RestartStep, IndexesExact, Unindexing, UpdateRefusal, UpdateHasRoom,
         UpstreamRefusal, NotesHaveRoom, PublishRefusal, SourcesKnown;
    match e.op
    case Register(publisher, boot, scope, session) =>
      RegisterKeeps(s, publisher, boot, scope, session, limits);
      NamedIndexed(s, After(s, e, limits));
    case FencePublisher(publisher, boot) =>
      FenceKeeps(s, publisher, boot);
      NamedIndexed(s, After(s, e, limits));
    case AdvanceEpoch =>
      AdvanceKeepsKeys(s);
      UnindexingKeeps(s, After(s, e, limits));
    case Create(q, id) => CreateIndexed(s, q, id, e.now, limits);
    case Update(q) => UpdateIndexed(s, q, e.now, limits);
    case Transition(policy, event, ctx) =>
      TransitionKeepsKeys(s, policy, event, ctx);
      UnindexingKeeps(s, After(s, e, limits));
    case RevokePolicy(policy, reason, detail, ctx) =>
      RevokeKeepsKeys(s, policy, reason, detail, ctx, limits);
      UnindexingKeeps(s, After(s, e, limits));
    case Upstream(notes, ctx, fingerprint) => UpstreamNeedsRoom(s, notes, ctx, fingerprint, limits);
    case Publish(batch, ctx, fingerprint) => PublishNeedsKnown(s, batch, ctx, fingerprint, limits);
    case Commit(t, ctx, fingerprint, minted) =>
      CommitKeepsKeys(s, t, ctx, fingerprint, minted, e.now, limits);
      UnindexingKeeps(s, After(s, e, limits));
    case Rollback(p, ctx, fingerprint, minted) =>
      RollbackKeepsKeys(s, p, ctx, fingerprint, minted, e.now, limits);
      UnindexingKeeps(s, After(s, e, limits));
    case Restart(saved) => RestartIndexed(s, saved, e.now, limits);
  }

  // Every state of the run has exact indexes.
  ghost predicate AlwaysExact(s: State, es: seq<Event>, limits: Limits)
    decreases |es|
  {
    IndexesExact(s) && (es != [] ==> AlwaysExact(After(s, es[0], limits), es[1..], limits))
  }

  // Every step of the run has room.
  ghost predicate RunHasRoom(s: State, es: seq<Event>, limits: Limits)
    decreases |es|
  {
    es != [] ==> StepHasRoom(s, es[0], limits) && RunHasRoom(After(s, es[0], limits), es[1..], limits)
  }

  // Along a run all four indexes list exactly the policies a full scan finds,
  // without empty entries, if and only if every step has room.
  lemma {:induction false} IndexesAgreeWithScan(s: State, es: seq<Event>, limits: Limits)
    requires StateOk(s) && IndexesExact(s)
    ensures AlwaysExact(s, es, limits) <==> RunHasRoom(s, es, limits)
    ensures RunHasRoom(s, es, limits) ==> IndexesExact(Exec(s, es, limits))
    decreases |es|
  {
    hide After, IndexesExact, StepHasRoom, StateOk;
    if es != [] {
      var t := After(s, es[0], limits);
      StepOk(s, es[0], limits);
      StepIsExact(s, es[0], limits);
      if IndexesExact(t) {
        IndexesAgreeWithScan(t, es[1..], limits);
      } else {
        InexactIsNotAlways(t, es[1..], limits);
      }
    }
  }

  lemma InexactIsNotAlways(s: State, es: seq<Event>, limits: Limits)
    ensures !IndexesExact(s) ==> !AlwaysExact(s, es, limits)
  {
    hide After, IndexesExact;
  }

  // In particular every declared path of every policy is reached by its
  // invalidations, which is what commit fencing relies on.
  lemma ReachableStatesFence(es: seq<Event>, p: Id, limits: Limits)
    requires RunHasRoom(INITIAL_STATE, es, limits) && p in Exec(INITIAL_STATE, es, limits).policies
    ensures IndexedAt(Exec(INITIAL_STATE, es, limits), p)
  {
    hide After, Exec, RunHasRoom;
    NothingIndexed(INITIAL_STATE.evidence);
    IndexesAgreeWithScan(INITIAL_STATE, es, limits);
    ExactReaches(Exec(INITIAL_STATE, es, limits), p);
  }

  // So the fence holds, with nothing assumed of the indexes, for every evaluation
  // begun on a state that a run with room has reached.
  lemma ReachableCommitIsFenced(
    before: seq<Event>, es: seq<Event>, p: Id, ctx: Context, begun: Ticks, ticket: Ticket, e: Event, limits: Limits)
    requires RunHasRoom(INITIAL_STATE, before, limits)
    requires Presents(Exec(INITIAL_STATE, before, limits), p, ctx, begun, ticket, e)
    requires Commits(Exec(INITIAL_STATE, before + es, limits), e, p, limits)
    ensures var s := Exec(INITIAL_STATE, before, limits);
            && Undisturbed(s, es, p, limits)
            && (forall path :: CandidateOf(s, p, path).Some? ==> WholeTurns(TotalTouches(s, es, path, limits)))
            && TargetHeld(s, Exec(s, es, limits), p, ticket.verdict.target)
  {
    hide After, Exec, RunHasRoom, Presents, Commits, Undisturbed, TotalTouches, CandidateOf, TargetHeld, PolicyOk,
         Reaches;
    var s := Exec(INITIAL_STATE, before, limits);
    ExecConcat(INITIAL_STATE, before, es, limits);
    ExecOk(INITIAL_STATE, before, limits);
    PresentedFacts(s, p, ctx, begun, ticket, Exec(s, es, limits), e, limits);
    ReachableStatesFence(before, p, limits);
    CommitIsFenced(s, es, p, ctx, begun, ticket, e, limits);
  }

  lemma ExactReaches(s: State, p: Id)
    requires IndexesExact(s) && p in s.policies
    ensures IndexedAt(s, p)
  {
    forall path | CandidateOf(s, p, path).Some?
      ensures p in Get(s.index.byPath, path)
    {
      assert p in PathKeys(s.policies) && path in PathKeys(s.policies)[p];
    }
  }
}
