// Sorting by a key, as canonical copies and snapshots are sorted: which algorithm
// runs does not matter, because keys are distinct and only one arrangement is
// increasing.

module Sorting {
  import opened Base

  // By name first, then by rank.
  datatype SortKey = SortKey(name: Id, rank: nat)

  predicate Before(a: SortKey, b: SortKey) { Less(a.name, b.name) || (a.name == b.name && a.rank < b.rank) }

  lemma BeforeTotal(a: SortKey, b: SortKey)
    ensures a == b || Before(a, b) || Before(b, a)
  {
    LessTotal(a.name, b.name);
  }

  lemma BeforeTransitive(a: SortKey, b: SortKey, c: SortKey)
    requires Before(a, b) && Before(b, c)
    ensures Before(a, c)
  {
    if Less(a.name, b.name) && Less(b.name, c.name) {
      LessTransitive(a.name, b.name, c.name);
    }
  }

  lemma BeforeAsymmetric(a: SortKey, b: SortKey)
    requires Before(a, b)
    ensures !Before(b, a)
  {
    LessIrreflexive(a.name);
    if Less(a.name, b.name) {
      LessAsymmetric(a.name, b.name);
    }
  }

  function InsertedBy<T>(x: T, s: seq<T>, key: T -> SortKey): seq<T>
  {
    if s == [] then [x]
    else if Before(key(s[0]), key(x)) then [s[0]] + InsertedBy(x, s[1..], key)
    else [x] + s
  }

  function SortedBy<T>(s: seq<T>, key: T -> SortKey): seq<T>
  {
    if s == [] then [] else InsertedBy(s[0], SortedBy(s[1..], key), key)
  }

  ghost predicate DistinctKeys<T>(s: seq<T>, key: T -> SortKey)
  {
    forall i, j :: 0 <= i < j < |s| ==> key(s[i]) != key(s[j])
  }

  ghost predicate Increasing<T>(s: seq<T>, key: T -> SortKey)
  {
    forall i, j :: 0 <= i < j < |s| ==> Before(key(s[i]), key(s[j]))
  }

  lemma {:induction false} InsertedPermutes<T>(x: T, s: seq<T>, key: T -> SortKey)
    ensures multiset(InsertedBy(x, s, key)) == multiset(s) + multiset{x}
  {
    if s != [] {
      assert s == [s[0]] + s[1..];
      if Before(key(s[0]), key(x)) {
        InsertedPermutes(x, s[1..], key);
      }
    }
  }

  lemma {:induction false} SortedPermutes<T>(s: seq<T>, key: T -> SortKey)
    ensures multiset(SortedBy(s, key)) == multiset(s)
  {
    if s != [] {
      assert s == [s[0]] + s[1..];
      SortedPermutes(s[1..], key);
      InsertedPermutes(s[0], SortedBy(s[1..], key), key);
    }
  }

  lemma {:induction false} InsertedIncreases<T>(x: T, s: seq<T>, key: T -> SortKey)
    requires Increasing(s, key) && forall y :: y in s ==> key(y) != key(x)
    ensures Increasing(InsertedBy(x, s, key), key)
  {
    if s != [] {
      var r := InsertedBy(x, s, key);
      if Before(key(s[0]), key(x)) {
        var tail := InsertedBy(x, s[1..], key);
        InsertedIncreases(x, s[1..], key);
        InsertedPermutes(x, s[1..], key);
        forall j | 0 <= j < |tail|
          ensures Before(key(s[0]), key(tail[j]))
        {
          assert tail[j] in multiset(s[1..]) + multiset{x};
        }
      } else {
        BeforeTotal(key(x), key(s[0]));
        forall j | 1 <= j < |r|
          ensures Before(key(x), key(r[j]))
        {
          if j > 1 { BeforeTransitive(key(x), key(s[0]), key(s[j - 1])); }
        }
      }
    }
  }

  lemma {:induction false} SortedIncreases<T>(s: seq<T>, key: T -> SortKey)
    requires DistinctKeys(s, key)
    ensures Increasing(SortedBy(s, key), key)
  {
    if s != [] {
      SortedIncreases(s[1..], key);
      SortedPermutes(s[1..], key);
      forall y | y in SortedBy(s[1..], key)
        ensures key(y) != key(s[0])
      {
        assert y in multiset(s[1..]);
      }
      InsertedIncreases(s[0], SortedBy(s[1..], key), key);
    }
  }

  lemma FirstIsShared<T>(a: seq<T>, b: seq<T>, key: T -> SortKey)
    requires Increasing(a, key) && Increasing(b, key) && multiset(a) == multiset(b) && a != []
    ensures b != [] && a[0] == b[0]
  {
    assert a[0] in multiset(b);
    var k :| 0 <= k < |b| && b[k] == a[0];
    assert b[0] in multiset(a);
    var j :| 0 <= j < |a| && a[j] == b[0];
    if k > 0 && j > 0 {
      BeforeAsymmetric(key(b[0]), key(b[k]));
    }
  }

  // There is only one increasing arrangement.
  lemma {:induction false} IncreasingIsUnique<T>(a: seq<T>, b: seq<T>, key: T -> SortKey)
    requires Increasing(a, key) && Increasing(b, key) && multiset(a) == multiset(b)
    ensures a == b
  {
    if a == [] {
      assert |multiset(b)| == 0;
    } else {
      FirstIsShared(a, b, key);
      assert a == [a[0]] + a[1..] && b == [a[0]] + b[1..];
      assert multiset(a) == multiset(a[1..]) + multiset{a[0]} && multiset(b) == multiset(b[1..]) + multiset{a[0]};
      MultisetCancel(multiset(a[1..]), multiset(b[1..]), a[0]);
      IncreasingIsUnique(a[1..], b[1..], key);
    }
  }

  // Sorting forgets the order and nothing else.
  lemma SortForgetsOrder<T>(a: seq<T>, b: seq<T>, key: T -> SortKey)
    requires DistinctKeys(a, key) && DistinctKeys(b, key)
    ensures SortedBy(a, key) == SortedBy(b, key) <==> multiset(a) == multiset(b)
  {
    SortedPermutes(a, key);
    SortedPermutes(b, key);
    SortedIncreases(a, key);
    SortedIncreases(b, key);
    if multiset(a) == multiset(b) {
      IncreasingIsUnique(SortedBy(a, key), SortedBy(b, key), key);
    }
  }

  lemma SameMembers<T(!new)>(a: seq<T>, b: seq<T>)
    requires multiset(a) == multiset(b)
    ensures forall x :: x in a <==> x in b
  {
    forall x
      ensures x in a <==> x in b
    {
      assert x in multiset(a) <==> x in multiset(b);
    }
  }
}
