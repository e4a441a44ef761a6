// The evidence snapshot as the vector it is: collected in capture order, sorted
// by path and kind, and searched by halving (src/evidence.cpp). The evaluation
// reads it as a map from path and kind; this is the same thing.

module Snapshots {
  import opened Base
  import opened Metrics
  import opened Evidence
  import opened Records
  import opened Evaluation
  import opened Sorting

  datatype Entry = Entry(path: Id, kind: MetricKind, value: Resolved)

  function SlotOf(e: Entry): Slot { Slot(e.path, e.kind) }

  function KeyOf(path: Id, kind: MetricKind): SortKey { SortKey(path, kind.Raw()) }

  function ByPathAndKind(e: Entry): SortKey { KeyOf(e.path, e.kind) }

  // What the entries say, the last one of a path and kind winning.
  function Filed(values: seq<Entry>): Snapshot
  {
    if values == [] then map[]
    else
      var last := values[|values| - 1];
      Filed(values[..|values| - 1])[SlotOf(last) := last.value]
  }

  // The entries of one candidate, in the order of the requirements.
  ghost function CollectedFor(store: Store, path: Id, rs: seq<Requirement>): seq<Entry>
  {
    if rs == [] then []
    else
      var r := rs[|rs| - 1];
      var before := CollectedFor(store, path, rs[..|rs| - 1]);
      match AggregateFor(store, path, r)
      case None => before
      case Some(v) => before + [Entry(path, r.kind, v)]
  }

  ghost function Collected(store: Store, cs: seq<Candidate>, rs: seq<Requirement>): seq<Entry>
  {
    if cs == [] then []
    else Collected(store, cs[..|cs| - 1], rs) + CollectedFor(store, PathOf(cs[|cs| - 1]), rs)
  }

  // ------------------------------------------------------------------------
  // The vector and the map agree
  // ------------------------------------------------------------------------

  lemma FiledAppend(values: seq<Entry>, e: Entry)
    ensures Filed(values + [e]) == Filed(values)[SlotOf(e) := e.value]
  {
    assert (values + [e])[..|values|] == values;
  }

  lemma {:induction false} CollectedForFiles(store: Store, path: Id, rs: seq<Requirement>, base: seq<Entry>)
    ensures Filed(base + CollectedFor(store, path, rs)) == CapturedFor(store, path, rs, Filed(base))
  {
    hide Filed, AggregateFor;
    if rs == [] {
      assert base + CollectedFor(store, path, rs) == base;
    } else {
      var r, before := rs[|rs| - 1], CollectedFor(store, path, rs[..|rs| - 1]);
      CollectedForFiles(store, path, rs[..|rs| - 1], base);
      var v := AggregateFor(store, path, r);
      if v.Some? {
        FiledAppend(base + before, Entry(path, r.kind, v.value));
        assert base + (before + [Entry(path, r.kind, v.value)]) == base + before + [Entry(path, r.kind, v.value)];
      }
    }
  }

  lemma {:induction false} CollectedFiles(store: Store, cs: seq<Candidate>, rs: seq<Requirement>)
    ensures Filed(Collected(store, cs, rs)) == Captured(store, cs, rs)
  {
    if cs != [] {
      hide Filed, CollectedFor, CapturedFor;
      CollectedFiles(store, cs[..|cs| - 1], rs);
      CollectedForFiles(store, PathOf(cs[|cs| - 1]), rs, Collected(store, cs[..|cs| - 1], rs));
    }
  }

  // ------------------------------------------------------------------------
  // No path and kind twice
  // ------------------------------------------------------------------------

  lemma KeysAreSlots(a: Entry, b: Entry)
    ensures ByPathAndKind(a) == ByPathAndKind(b) <==> SlotOf(a) == SlotOf(b)
  {
  }

  ghost predicate OfKinds(values: seq<Entry>, path: Id, rs: seq<Requirement>)
  {
    forall e :: e in values ==> e.path == path && exists i :: 0 <= i < |rs| && rs[i].kind == e.kind
  }

  lemma {:induction false} CollectedForDistinct(store: Store, path: Id, rs: seq<Requirement>)
    requires DistinctKinds(rs)
    ensures OfKinds(CollectedFor(store, path, rs), path, rs)
    ensures DistinctKeys(CollectedFor(store, path, rs), ByPathAndKind)
  {
    hide AggregateFor;
    if rs != [] {
      var init, r := rs[..|rs| - 1], rs[|rs| - 1];
      var before := CollectedFor(store, path, init);
      CollectedForDistinct(store, path, init);
      assert OfKinds(before, path, rs) by {
        forall e | e in before
          ensures e.path == path && exists i :: 0 <= i < |rs| && rs[i].kind == e.kind
        {
          var i :| 0 <= i < |init| && init[i].kind == e.kind;
          assert rs[i].kind == e.kind;
        }
      }
      forall e | e in before
        ensures e.kind != r.kind
      {
        var i :| 0 <= i < |init| && init[i].kind == e.kind;
        assert rs[i].kind == e.kind;
      }
    }
  }

  lemma {:induction false} CollectedDistinct(store: Store, cs: seq<Candidate>, rs: seq<Requirement>)
    requires DistinctKinds(rs) && forall i, j :: 0 <= i < j < |cs| ==> PathOf(cs[i]) != PathOf(cs[j])
    ensures forall e :: e in Collected(store, cs, rs) ==> e.path in Paths(cs)
    ensures DistinctKeys(Collected(store, cs, rs), ByPathAndKind)
  {
    if cs != [] {
      hide CollectedFor;
      var init, last := cs[..|cs| - 1], cs[|cs| - 1];
      assert cs == init + [last];
      assert Paths(cs) == Paths(init) + {PathOf(last)} && PathOf(last) !in Paths(init);
      CollectedDistinct(store, init, rs);
      CollectedForDistinct(store, PathOf(last), rs);
    }
  }

  lemma LastIsNew(values: seq<Entry>)
    requires DistinctKeys(values, ByPathAndKind) && values != []
    ensures DistinctKeys(values[..|values| - 1], ByPathAndKind)
    ensures forall e :: e in values[..|values| - 1] ==> SlotOf(e) != SlotOf(values[|values| - 1])
  {
    var init, last := values[..|values| - 1], values[|values| - 1];
    forall e | e in init
      ensures SlotOf(e) != SlotOf(last)
    {
      var i :| 0 <= i < |init| && init[i] == e;
      assert ByPathAndKind(values[i]) != ByPathAndKind(values[|init|]);
      KeysAreSlots(e, last);
    }
  }

  lemma {:induction false} FiledMembers(values: seq<Entry>)
    requires DistinctKeys(values, ByPathAndKind)
    ensures forall e :: e in values ==> SlotOf(e) in Filed(values) && Filed(values)[SlotOf(e)] == e.value
    ensures forall s :: s in Filed(values) ==> exists e :: e in values && SlotOf(e) == s
  {
    if values != [] {
      LastIsNew(values);
      hide DistinctKeys, ByPathAndKind;
      var init, last := values[..|values| - 1], values[|values| - 1];
      assert values == init + [last];
      FiledMembers(init);
      forall s | s in Filed(values)
        ensures exists e :: e in values && SlotOf(e) == s
      {
        if s in Filed(init) {
          var e :| e in init && SlotOf(e) == s;
          assert e in values;
        } else {
          assert last in values && SlotOf(last) == s;
        }
      }
    }
  }

  lemma FiledInside(a: seq<Entry>, b: seq<Entry>)
    requires DistinctKeys(a, ByPathAndKind) && DistinctKeys(b, ByPathAndKind) && forall e :: e in a ==> e in b
    ensures forall s :: s in Filed(a) ==> s in Filed(b) && Filed(b)[s] == Filed(a)[s]
  {
    hide Filed, DistinctKeys, ByPathAndKind;
    FiledMembers(a);
    FiledMembers(b);
    forall s | s in Filed(a)
      ensures s in Filed(b) && Filed(b)[s] == Filed(a)[s]
    {
      var e :| e in a && SlotOf(e) == s;
      assert e in b;
    }
  }

  // Sorting does not change what the entries say.
  lemma SortedFiles(values: seq<Entry>)
    requires DistinctKeys(values, ByPathAndKind)
    ensures Increasing(SortedBy(values, ByPathAndKind), ByPathAndKind)
    ensures Filed(SortedBy(values, ByPathAndKind)) == Filed(values)
  {
    hide SortedBy, Filed, DistinctKeys, Increasing, ByPathAndKind;
    var sorted := SortedBy(values, ByPathAndKind);
    SortedIncreases(values, ByPathAndKind);
    SortedPermutes(values, ByPathAndKind);
    IncreasingIsDistinct(sorted);
    SameMembers(sorted, values);
    FiledInside(values, sorted);
    FiledInside(sorted, values);
  }

  lemma IncreasingIsDistinct(values: seq<Entry>)
    requires Increasing(values, ByPathAndKind)
    ensures DistinctKeys(values, ByPathAndKind)
  {
    forall i, j | 0 <= i < j < |values|
      ensures ByPathAndKind(values[i]) != ByPathAndKind(values[j])
    {
      LessIrreflexive(values[i].path);
    }
  }

  // The finished vector is in canonical order and says exactly what the
  // evaluation's map says.
  lemma VectorIsSnapshot(store: Store, cs: seq<Candidate>, rs: seq<Requirement>)
    requires DistinctKinds(rs) && forall i, j :: 0 <= i < j < |cs| ==> PathOf(cs[i]) != PathOf(cs[j])
    ensures var values := SortedBy(Collected(store, cs, rs), ByPathAndKind);
            Increasing(values, ByPathAndKind) && Filed(values) == Captured(store, cs, rs)
  {
    hide SortedBy, Filed;
    CollectedDistinct(store, cs, rs);
    CollectedFiles(store, cs, rs);
    SortedFiles(Collected(store, cs, rs));
  }

  // ------------------------------------------------------------------------
  // The loops
  // ------------------------------------------------------------------------

  method CaptureValues(store: Store, cs: seq<Candidate>, rs: seq<Requirement>) returns (values: seq<Entry>)
    ensures values == SortedBy(Collected(store, cs, rs), ByPathAndKind)
  {
    values := [];
    for i := 0 to |cs|
      invariant values == Collected(store, cs[..i], rs)
    {
      assert cs[..i + 1][..i] == cs[..i];
      for j := 0 to |rs|
        invariant values == Collected(store, cs[..i], rs) + CollectedFor(store, PathOf(cs[i]), rs[..j])
      {
        assert rs[..j + 1][..j] == rs[..j];
        var resolved := ComputeAggregate(store, PathOf(cs[i]), rs[j]);
        if resolved.Some? {
          values := values + [Entry(PathOf(cs[i]), rs[j].kind, resolved.value)];
        }
      }
      assert rs[..|rs|] == rs;
    }
    assert cs[..|cs|] == cs;
    values := SortedBy(values, ByPathAndKind);
  }

  // The binary search over the sorted vector answers as the map does.
  method FindResolved(values: seq<Entry>, path: Id, kind: MetricKind) returns (r: Option<Resolved>)
    requires Increasing(values, ByPathAndKind)
    ensures r == if Slot(path, kind) in Filed(values) then Some(Filed(values)[Slot(path, kind)]) else None
  {
    hide Filed;
    IncreasingIsDistinct(values);
    FiledMembers(values);
    var key := KeyOf(path, kind);
    var low, high := 0, |values|;
    while low < high
      invariant 0 <= low <= high <= |values|
      invariant forall i :: 0 <= i < low ==> Before(ByPathAndKind(values[i]), key)
      invariant forall i :: high <= i < |values| ==> !Before(ByPathAndKind(values[i]), key)
    {
      var middle := low + (high - low) / 2;
      if Before(ByPathAndKind(values[middle]), key) {
        SmallerBefore(values, middle, key);
        low := middle + 1;
      } else {
        LargerAfter(values, middle, key);
        high := middle;
      }
    }
    OnlyAt(values, low, key);
    if low < |values| && values[low].path == path && values[low].kind == kind {
      return Some(values[low].value);
    }
    return None;
  }

  lemma SmallerBefore(values: seq<Entry>, middle: nat, key: SortKey)
    requires Increasing(values, ByPathAndKind) && middle < |values| && Before(ByPathAndKind(values[middle]), key)
    ensures forall i :: 0 <= i <= middle ==> Before(ByPathAndKind(values[i]), key)
  {
    forall i | 0 <= i < middle
      ensures Before(ByPathAndKind(values[i]), key)
    {
      BeforeTransitive(ByPathAndKind(values[i]), ByPathAndKind(values[middle]), key);
    }
  }

  lemma LargerAfter(values: seq<Entry>, middle: nat, key: SortKey)
    requires Increasing(values, ByPathAndKind) && middle < |values| && !Before(ByPathAndKind(values[middle]), key)
    ensures forall i :: middle <= i < |values| ==> !Before(ByPathAndKind(values[i]), key)
  {
    forall i | middle < i < |values|
      ensures !Before(ByPathAndKind(values[i]), key)
    {
      if Before(ByPathAndKind(values[i]), key) {
        BeforeTransitive(ByPathAndKind(values[middle]), ByPathAndKind(values[i]), key);
      }
    }
  }

  // Between the smaller and the others, only the first of the others can match.
  lemma OnlyAt(values: seq<Entry>, low: nat, key: SortKey)
    requires Increasing(values, ByPathAndKind) && low <= |values|
    requires forall i :: 0 <= i < low ==> Before(ByPathAndKind(values[i]), key)
    requires forall i :: low <= i < |values| ==> !Before(ByPathAndKind(values[i]), key)
    ensures forall e :: e in values && ByPathAndKind(e) == key ==> low < |values| && e == values[low]
  {
    forall e | e in values && ByPathAndKind(e) == key
      ensures low < |values| && e == values[low]
    {
      var j :| 0 <= j < |values| && values[j] == e;
      LessIrreflexive(key.name);
    }
  }
}
