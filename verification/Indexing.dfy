// The reverse indexes and the targeted invalidation they serve (src/fabric.cpp).

module Indexing {
  import opened Base
  import opened Evidence
  import opened Policy
  import opened Records

  // ------------------------------------------------------------------------
  // One index
  // ------------------------------------------------------------------------

  function Get(index: Index, key: Id): set<Id> { if key in index then index[key] else {} }

  function Add(index: Index, key: Id, policy: Id): Index { index[key := Get(index, key) + {policy}] }

  // Removing the last policy removes the entry.
  function Drop(index: Index, key: Id, policy: Id): Index
  {
    if key !in index then index
    else if index[key] - {policy} == {} then index - {key}
    else index[key := index[key] - {policy}]
  }

  function AddAll(index: Index, keys: set<Id>, policy: Id): Index
  {
    map k | k in index.Keys + keys :: if k in keys then Get(index, k) + {policy} else Get(index, k)
  }

  function DropAll(index: Index, keys: set<Id>, policy: Id): Index
  {
    map k | k in index && !(k in keys && index[k] - {policy} == {}) ::
      if k in keys then index[k] - {policy} else index[k]
  }

  lemma AddAllStep(index: Index, keys: set<Id>, key: Id, policy: Id)
    ensures Add(AddAll(index, keys, policy), key, policy) == AddAll(index, keys + {key}, policy)
  {
    var a, b := Add(AddAll(index, keys, policy), key, policy), AddAll(index, keys + {key}, policy);
    assert a.Keys == b.Keys;
  }

  lemma DropAllStep(index: Index, keys: set<Id>, key: Id, policy: Id)
    ensures Drop(DropAll(index, keys, policy), key, policy) == DropAll(index, keys + {key}, policy)
  {
    var a, b := Drop(DropAll(index, keys, policy), key, policy), DropAll(index, keys + {key}, policy);
    if key in index {
      assert index[key] - {policy} - {policy} == index[key] - {policy};
    }
    assert forall k :: k in a <==> k in b;
    assert a.Keys == b.Keys;
  }

  // ------------------------------------------------------------------------
  // Indexing one policy
  // ------------------------------------------------------------------------

  function SourcesOf(store: Store, paths: set<Id>): set<Id>
  {
    set k | k in store.series && k.path in paths :: k.source
  }

  // The path index stops growing once it holds the configured number of paths.
  function IndexPaths(index: Index, cs: seq<Candidate>, policy: Id, cap: nat): Index
    decreases |cs|
  {
    if cs == [] || |index| >= cap then index
    else IndexPaths(Add(index, PathOf(cs[0]), policy), cs[1..], policy, cap)
  }

  function PathCap(limits: Limits): nat { WrapMul(limits.maxPerPath, 16) }

  function IndexedWith(x: Indexes, r: PolicyRecord, store: Store, policy: Id, cap: nat): Indexes
  {
    var target := r.policy.semantics.target;
    Indexes(
      IndexPaths(x.byPath, r.candidates, policy, cap),
      Add(x.byRoute, target.route, policy),
      if target.multipath.Some? then Add(x.bySet, target.multipath.value, policy) else x.bySet,
      AddAll(x.bySource, SourcesOf(store, Paths(r.candidates)), policy))
  }

  function IndexedWithout(x: Indexes, r: PolicyRecord, store: Store, policy: Id): Indexes
  {
    var target := r.policy.semantics.target;
    Indexes(
      DropAll(x.byPath, Paths(r.candidates), policy),
      Drop(x.byRoute, target.route, policy),
      if target.multipath.Some? then Drop(x.bySet, target.multipath.value, policy) else x.bySet,
      DropAll(x.bySource, SourcesOf(store, Paths(r.candidates)), policy))
  }

  function Reindexed(s: State, policy: Id, limits: Limits): State
  {
    if policy !in s.policies then s
    else s.(index := IndexedWith(s.index, s.policies[policy], s.evidence, policy, PathCap(limits)))
  }

  function Unindexed(s: State, policy: Id): State
  {
    if policy !in s.policies then s
    else s.(index := IndexedWithout(s.index, s.policies[policy], s.evidence, policy))
  }

  // ------------------------------------------------------------------------
  // Invalidation
  // ------------------------------------------------------------------------

  function WithCandidate(r: PolicyRecord, path: Id, c: Candidate): PolicyRecord
    requires Position(r.candidates, path) < |r.candidates|
  {
    r.(candidates := r.candidates[Position(r.candidates, path) := c])
  }

  // The watermark of the path moves; every other candidate keeps its own.
  function Bumped(r: PolicyRecord, path: Id): PolicyRecord
  {
    match Find(r.candidates, path)
    case None => r
    case Some(c) => WithCandidate(r, path, c.(watermark := WrapAdd(c.watermark, 1)))
  }

  function Invalidated(s: State, path: Id): State
  {
    s.(upstreamWatermark := Advanced(s.upstreamWatermark),
       policies := map id | id in s.policies ::
         if id in Get(s.index.byPath, path) then Bumped(s.policies[id], path) else s.policies[id])
  }

  // ------------------------------------------------------------------------
  // The loops
  // ------------------------------------------------------------------------

  method IndexCandidates(index: Index, cs: seq<Candidate>, policy: Id, cap: nat) returns (r: Index)
    ensures r == IndexPaths(index, cs, policy, cap)
  {
    r := index;
    for i := 0 to |cs|
      invariant IndexPaths(index, cs, policy, cap) == IndexPaths(r, cs[i..], policy, cap)
    {
      assert cs[i..][1..] == cs[i + 1..];
      if |r| >= cap {
        return;
      }
      r := Add(r, PathOf(cs[i]), policy);
    }
  }

  method DropCandidates(index: Index, cs: seq<Candidate>, policy: Id) returns (r: Index)
    ensures r == DropAll(index, Paths(cs), policy)
  {
    r := index;
    assert DropAll(index, Paths(cs[..0]), policy) == index;
    for i := 0 to |cs|
      invariant r == DropAll(index, Paths(cs[..i]), policy)
    {
      DropAllStep(index, Paths(cs[..i]), PathOf(cs[i]), policy);
      assert cs[..i + 1] == cs[..i] + [cs[i]];
      assert Paths(cs[..i + 1]) == Paths(cs[..i]) + {PathOf(cs[i])};
      r := Drop(r, PathOf(cs[i]), policy);
    }
    assert cs[..|cs|] == cs;
  }

  // Sources of the series whose path the policy binds, series by series.
  method CollectSources(store: Store, cs: seq<Candidate>) returns (sources: set<Id>)
    ensures sources == SourcesOf(store, Paths(cs))
  {
    sources := {};
    var rest := store.series.Keys;
    while rest != {}
      invariant rest <= store.series.Keys
      invariant sources == set k | k in store.series && k !in rest && k.path in Paths(cs) :: k.source
      decreases rest
    {
      var k :| k in rest;
      rest := rest - {k};
      if k.path in Paths(cs) {
        sources := sources + {k.source};
      }
    }
  }

  method AddSources(index: Index, sources: set<Id>, policy: Id) returns (r: Index)
    ensures r == AddAll(index, sources, policy)
  {
    r := index;
    var rest := sources;
    assert AddAll(index, sources - rest, policy) == index;
    while rest != {}
      invariant rest <= sources && r == AddAll(index, sources - rest, policy)
      decreases rest
    {
      var k :| k in rest;
      AddAllStep(index, sources - rest, k, policy);
      assert sources - rest + {k} == sources - (rest - {k});
      rest := rest - {k};
      r := Add(r, k, policy);
    }
    assert sources - rest == sources;
  }

  method DropSources(index: Index, sources: set<Id>, policy: Id) returns (r: Index)
    ensures r == DropAll(index, sources, policy)
  {
    r := index;
    var rest := sources;
    assert DropAll(index, sources - rest, policy) == index;
    while rest != {}
      invariant rest <= sources && r == DropAll(index, sources - rest, policy)
      decreases rest
    {
      var k :| k in rest;
      DropAllStep(index, sources - rest, k, policy);
      assert sources - rest + {k} == sources - (rest - {k});
      rest := rest - {k};
      r := Drop(r, k, policy);
    }
    assert sources - rest == sources;
  }
}
