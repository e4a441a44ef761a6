// Machine integers, generations, identities and small sequence facts shared by
// every module.

module Base {

  datatype Option<+T> = None | Some(value: T)

  type byte = x: int | 0 <= x < 0x100
  type u16 = x: int | 0 <= x < 0x1_0000
  type u32 = x: int | 0 <= x < 0x1_0000_0000
  type u64 = x: int | 0 <= x < 0x1_0000_0000_0000_0000
  type i64 = x: int | -0x8000_0000_0000_0000 <= x < 0x8000_0000_0000_0000

  const U64_MAX: u64 := 0xFFFF_FFFF_FFFF_FFFF
  const TWO_64: int := 0x1_0000_0000_0000_0000
  const TWO_32: int := 0x1_0000_0000

  // Monotonic clock readings and durations, in nanoseconds.
  type Ticks = u64

  // Unsigned arithmetic of the source wraps.
  function WrapAdd(a: u64, b: u64): u64 { (a + b) % TWO_64 }
  function WrapMul(a: u64, b: u64): u64 { (a * b) % TWO_64 }
  function WrapAdd32(a: u32, b: u32): u32 { (a + b) % TWO_32 }

  function Min(a: int, b: int): int { if a <= b then a else b }
  function Max(a: int, b: int): int { if a <= b then b else a }

  // Signed division of the source truncates toward zero.
  function TruncDiv(a: int, b: int): int
    requires b > 0
  {
    if a >= 0 then a / b else -(-a / b)
  }

  lemma MulMonotone(x: int, y: int, z: int)
    ensures x <= y && 0 <= z ==> x * z <= y * z
  {
  }

  // What a floor division says, also after it is capped.
  lemma FloorDivision(a: int, b: int, cap: int)
    requires a >= 0 && b > 0
    ensures a / b * b <= a < (a / b + 1) * b
    ensures a / b >= cap ==> cap * b <= a
    ensures a / b < cap ==> a < cap * b
  {
    MulMonotone(cap, a / b, b);
    MulMonotone(a / b + 1, cap, b);
  }

  // Generation::next and Watermark::next: an exhausted counter does not wrap.
  function Next(g: u64): Option<u64>
  {
    if g == U64_MAX then None else Some(g + 1)
  }

  // Checked signed 64-bit arithmetic: an overflow is reported, never wrapped.
  function Checked(x: int): Option<i64>
  {
    if -0x8000_0000_0000_0000 <= x < 0x8000_0000_0000_0000 then Some(x) else None
  }

  // A textual identity is a byte string; the empty string is the invalid one.
  type Id = seq<byte>

  const NO_ID: Id := []

  predicate ValidId(id: Id) { id != [] }

  // Byte-wise lexicographic order, shorter prefix first: the canonical
  // tie-break of the runtime.
  predicate Less(a: Id, b: Id)
  {
    if b == [] then false
    else if a == [] then true
    else if a[0] != b[0] then a[0] < b[0]
    else Less(a[1..], b[1..])
  }

  lemma {:induction false} LessIrreflexive(a: Id)
    ensures !Less(a, a)
  {
    if a != [] { LessIrreflexive(a[1..]); }
  }

  lemma {:induction false} LessTransitive(a: Id, b: Id, c: Id)
    requires Less(a, b) && Less(b, c)
    ensures Less(a, c)
  {
    if a != [] && a[0] == b[0] && b[0] == c[0] {
      LessTransitive(a[1..], b[1..], c[1..]);
    }
  }

  lemma LessAsymmetric(a: Id, b: Id)
    requires Less(a, b)
    ensures !Less(b, a)
  {
    if Less(b, a) {
      LessTransitive(a, b, a);
      LessIrreflexive(a);
    }
  }

  lemma {:induction false} LessTotal(a: Id, b: Id)
    ensures a == b || Less(a, b) || Less(b, a)
  {
    if a != [] && b != [] && a[0] == b[0] {
      LessTotal(a[1..], b[1..]);
      if a[1..] == b[1..] {
        assert a == [a[0]] + a[1..] && b == [b[0]] + b[1..];
      }
    }
  }

  predicate NoDuplicates<T(==)>(s: seq<T>)
  {
    forall i, j :: 0 <= i < j < |s| ==> s[i] != s[j]
  }

  lemma RemoveAt<T>(s: seq<T>, i: nat)
    requires i < |s|
    ensures multiset(s[..i] + s[i + 1..]) + multiset{s[i]} == multiset(s)
  {
    assert s == s[..i] + ([s[i]] + s[i + 1..]);
  }

  lemma MultisetCancel<T>(a: multiset<T>, b: multiset<T>, x: T)
    requires a + multiset{x} == b + multiset{x}
    ensures a == b
  {
    assert a == a + multiset{x} - multiset{x} && b == b + multiset{x} - multiset{x};
  }

  // A bounded deque: the oldest entries leave first.
  function Trimmed<T>(s: seq<T>, bound: nat): seq<T>
  {
    if |s| > bound then s[|s| - bound..] else s
  }

  // One more entry, the oldest past the bound forgotten.
  ghost predicate Appends<T>(after: seq<T>, before: seq<T>, x: T, bound: nat)
  {
    && (|before| < bound ==> after == before + [x])
    && (|before| >= bound > 0 ==> |after| == bound && after == before[|before| - bound + 1..] + [x])
    && (bound == 0 ==> after == [])
  }

  lemma TrimmedAppends<T>(before: seq<T>, x: T, bound: nat)
    ensures Appends(Trimmed(before + [x], bound), before, x, bound)
  {
    var all := before + [x];
    if |before| >= bound {
      assert all[|all| - bound..] == if bound == 0 then [] else before[|before| - bound + 1..] + [x];
    }
  }

  // ------------------------------------------------------------------------
  // Iteration order of ordered maps
  // ------------------------------------------------------------------------

  ghost predicate IsFirst(ids: set<Id>, a: Id)
  {
    a in ids && forall b :: b in ids && b != a ==> Less(a, b)
  }

  lemma {:induction false} FirstExists(ids: set<Id>)
    requires ids != {}
    ensures exists a :: IsFirst(ids, a)
    decreases ids
  {
    var x :| x in ids;
    if ids - {x} == {} {
      assert ids == {x};
      assert IsFirst(ids, x);
    } else {
      FirstExists(ids - {x});
      var y :| IsFirst(ids - {x}, y);
      LessTotal(x, y);
      if Less(x, y) {
        forall b | b in ids && b != x
          ensures Less(x, b)
        {
          if b != y { LessTransitive(x, y, b); }
        }
        assert IsFirst(ids, x);
      } else {
        assert IsFirst(ids, y);
      }
    }
  }

  ghost function First(ids: set<Id>): (a: Id)
    requires ids != {}
    ensures IsFirst(ids, a)
  {
    FirstExists(ids);
    var a :| IsFirst(ids, a);
    a
  }

  lemma FirstIsUnique(ids: set<Id>, a: Id, b: Id)
    requires IsFirst(ids, a) && IsFirst(ids, b)
    ensures a == b
  {
    if a != b {
      LessAsymmetric(a, b);
    }
  }

  // The keys of an ordered map, in the order a loop visits them.
  ghost function InOrderOf(ids: set<Id>): (s: seq<Id>)
    ensures forall x :: x in s <==> x in ids
    ensures NoDuplicates(s)
    decreases ids
  {
    if ids == {} then [] else [First(ids)] + InOrderOf(ids - {First(ids)})
  }

  lemma HeadOfOrder(ids: set<Id>, a: Id, before: seq<Id>)
    requires IsFirst(ids, a)
    ensures before + InOrderOf(ids) == before + [a] + InOrderOf(ids - {a})
  {
    FirstIsUnique(ids, a, First(ids));
    assert before + ([a] + InOrderOf(ids - {a})) == before + [a] + InOrderOf(ids - {a});
  }

  // The loop that visits them: repeatedly the smallest key left.
  method SortKeys(ids: set<Id>) returns (s: seq<Id>)
    ensures s == InOrderOf(ids)
  {
    s := [];
    var rest := ids;
    while rest != {}
      invariant InOrderOf(ids) == s + InOrderOf(rest)
      decreases rest
    {
      var a := Smallest(rest);
      HeadOfOrder(rest, a, s);
      s := s + [a];
      rest := rest - {a};
    }
  }

  method Smallest(ids: set<Id>) returns (a: Id)
    requires ids != {}
    ensures IsFirst(ids, a)
  {
    a :| a in ids;
    var rest := ids - {a};
    while rest != {}
      invariant rest <= ids && a in ids && a !in rest
      invariant forall b :: b in ids && b !in rest && b != a ==> Less(a, b)
      decreases rest
    {
      var b :| b in rest;
      rest := rest - {b};
      LessTotal(a, b);
      if Less(b, a) {
        forall c | c in ids && c !in rest && c != b
          ensures Less(b, c)
        {
          if c != a { LessTransitive(b, a, c); }
        }
        a := b;
      }
    }
  }
}
