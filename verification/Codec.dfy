// The canonical byte codec: little-endian integers and length-prefixed strings,
// written by appending and read by advancing an offset (src/codec.cpp).

module Codec {
  import opened Base

  // Why a store is refused.
  datatype Status =
    | Empty | BadMagic | BadVersion | Truncated | Integrity | Malformed | TrailingBytes | DuplicatePolicy
    | InvalidGeneration | ImpossibleLifecycle | MalformedMetric | MalformedEvidenceBinding
    | InvalidPreferredCandidate | TimingWithoutPolicy | AbsurdCount | TooLarge | MalformedTiming

  // A value and the bytes after it, or the reason it could not be read.
  datatype Parse<+T> = Got(value: T, rest: seq<byte>) | Bad(status: Status)
  {
    predicate IsFailure() { Bad? }

    function PropagateFailure<U>(): Parse<U>
      requires Bad?
    {
      Bad(status)
    }

    function Extract(): (T, seq<byte>)
      requires Got?
    {
      (value, rest)
    }
  }

  // ------------------------------------------------------------------------
  // Integers
  // ------------------------------------------------------------------------

  function Pow256(n: nat): nat { if n == 0 then 1 else 256 * Pow256(n - 1) }

  // The n least significant bytes of x, least significant first, before rest.
  function LittleEndian(x: nat, n: nat, rest: seq<byte>): (b: seq<byte>)
    ensures |b| == n + |rest|
  {
    if n == 0 then rest else [x % 256] + LittleEndian(x / 256, n - 1, rest)
  }

  // The number the first n bytes spell, and what follows them.
  function FromLittleEndian(b: seq<byte>, n: nat): Option<(nat, seq<byte>)>
  {
    if n == 0 then Some((0, b))
    else if b == [] then None
    else
      match FromLittleEndian(b[1..], n - 1)
      case None => None
      case Some((high, rest)) => Some((b[0] + 256 * high, rest))
  }

  lemma {:induction false} LittleEndianTrip(x: nat, n: nat, rest: seq<byte>)
    requires x < Pow256(n)
    ensures FromLittleEndian(LittleEndian(x, n, rest), n) == Some((x, rest))
  {
    if n > 0 {
      var b := LittleEndian(x, n, rest);
      assert b[1..] == LittleEndian(x / 256, n - 1, rest);
      LittleEndianTrip(x / 256, n - 1, rest);
    }
  }

  lemma {:induction false} FromLittleEndianBound(b: seq<byte>, n: nat)
    ensures FromLittleEndian(b, n).Some? <==> |b| >= n
    ensures FromLittleEndian(b, n).Some? ==>
      FromLittleEndian(b, n).value.0 < Pow256(n) && FromLittleEndian(b, n).value.1 == b[n..]
  {
    if n > 0 && b != [] {
      FromLittleEndianBound(b[1..], n - 1);
    }
  }

  lemma Powers()
    ensures Pow256(1) == 0x100 && Pow256(2) == 0x1_0000 && Pow256(4) == TWO_32 && Pow256(8) == TWO_64
  {
    assert Pow256(3) == 0x100_0000;
    assert Pow256(5) == 256 * Pow256(4);
    assert Pow256(6) == 256 * Pow256(5);
    assert Pow256(7) == 256 * Pow256(6);
  }

  function U8(b: seq<byte>, status: Status): Parse<byte>
  {
    FromLittleEndianBound(b, 1);
    Powers();
    match FromLittleEndian(b, 1)
    case None => Bad(status)
    case Some((x, rest)) => Got(x, rest)
  }

  function U16(b: seq<byte>, status: Status): Parse<u16>
  {
    FromLittleEndianBound(b, 2);
    Powers();
    match FromLittleEndian(b, 2)
    case None => Bad(status)
    case Some((x, rest)) => Got(x, rest)
  }

  function U32(b: seq<byte>, status: Status): Parse<u32>
  {
    FromLittleEndianBound(b, 4);
    Powers();
    match FromLittleEndian(b, 4)
    case None => Bad(status)
    case Some((x, rest)) => Got(x, rest)
  }

  function U64(b: seq<byte>, status: Status): Parse<u64>
  {
    FromLittleEndianBound(b, 8);
    Powers();
    match FromLittleEndian(b, 8)
    case None => Bad(status)
    case Some((x, rest)) => Got(x, rest)
  }

  function PutU8(x: byte, rest: seq<byte>): (b: seq<byte>)
    ensures |b| == 1 + |rest| && forall status :: U8(b, status) == Got(x, rest)
  {
    Powers();
    LittleEndianTrip(x, 1, rest);
    LittleEndian(x, 1, rest)
  }

  function PutU16(x: u16, rest: seq<byte>): (b: seq<byte>)
    ensures |b| == 2 + |rest| && forall status :: U16(b, status) == Got(x, rest)
  {
    Powers();
    LittleEndianTrip(x, 2, rest);
    LittleEndian(x, 2, rest)
  }

  function PutU32(x: u32, rest: seq<byte>): (b: seq<byte>)
    ensures |b| == 4 + |rest| && forall status :: U32(b, status) == Got(x, rest)
  {
    Powers();
    LittleEndianTrip(x, 4, rest);
    LittleEndian(x, 4, rest)
  }

  function PutU64(x: u64, rest: seq<byte>): (b: seq<byte>)
    ensures |b| == 8 + |rest| && forall status :: U64(b, status) == Got(x, rest)
  {
    Powers();
    LittleEndianTrip(x, 8, rest);
    LittleEndian(x, 8, rest)
  }

  // A signed value travels as its two's complement.
  function I64(b: seq<byte>, status: Status): Parse<i64>
  {
    var (x, b) :- U64(b, status);
    Got(if x < 0x8000_0000_0000_0000 then x else x - TWO_64, b)
  }

  function PutI64(x: i64, rest: seq<byte>): (b: seq<byte>)
    ensures |b| == 8 + |rest| && forall status :: I64(b, status) == Got(x, rest)
  {
    PutU64(if x < 0 then x + TWO_64 else x, rest)
  }

  function Bool(b: seq<byte>, status: Status): Parse<bool>
  {
    var (x, b) :- U8(b, status);
    if x > 1 then Bad(status) else Got(x == 1, b)
  }

  function PutBool(x: bool, rest: seq<byte>): (b: seq<byte>)
    ensures |b| == 1 + |rest| && forall status :: Bool(b, status) == Got(x, rest)
  {
    PutU8(if x then 1 else 0, rest)
  }

  // ------------------------------------------------------------------------
  // Strings and identities
  // ------------------------------------------------------------------------

  // The declared length is bounded before anything is consumed.
  function Bytes(b: seq<byte>, limit: u64, status: Status): Parse<seq<byte>>
  {
    var (length, b) :- U64(b, status);
    if length > limit || length > |b| then Bad(status) else Got(b[..length], b[length..])
  }

  function PutBytes(x: seq<byte>, rest: seq<byte>): (b: seq<byte>)
    ensures forall limit: u64, status :: |x| <= limit ==> Bytes(b, limit, status) == Got(x, rest)
    ensures |x| < TWO_64 ==> |b| == 8 + |x| + |rest|
  {
    assert (x + rest)[..|x|] == x && (x + rest)[|x|..] == rest;
    PutU64(|x| % TWO_64, x + rest)
  }

  const MAX_ID_STRING: u64 := 4096

  // Letters, digits and . _ - : @ # + /
  predicate IdChar(c: byte)
  {
    IdEdge(c) || c in [46, 95, 45, 58, 64, 35, 43, 47]
  }

  // Letters and digits only.
  predicate IdEdge(c: byte)
  {
    65 <= c <= 90 || 97 <= c <= 122 || 48 <= c <= 57
  }

  predicate IdOk(id: Id, maxLength: nat)
  {
    && 0 < |id| <= maxLength
    && (forall i :: 0 <= i < |id| ==> IdChar(id[i]))
    && IdEdge(id[0]) && IdEdge(id[|id| - 1])
  }

  predicate MaybeIdOk(id: Id, maxLength: nat) { id == NO_ID || IdOk(id, maxLength) }

  function IdOf(b: seq<byte>, maxLength: nat, status: Status): Parse<Id>
  {
    var (text, b) :- Bytes(b, MAX_ID_STRING, status);
    if IdOk(text, maxLength) then Got(text, b) else Bad(status)
  }

  function PutId(id: Id, rest: seq<byte>): (b: seq<byte>)
    ensures forall maxLength: nat, status ::
      IdOk(id, maxLength) && maxLength <= MAX_ID_STRING ==> IdOf(b, maxLength, status) == Got(id, rest)
    ensures forall maxLength: nat, status ::
      MaybeIdOk(id, maxLength) && maxLength <= MAX_ID_STRING ==> MaybeId(b, maxLength, status) == Got(id, rest)
  {
    PutBytes(id, rest)
  }

  // An identity that may be absent: the empty string stands for none.
  function MaybeId(b: seq<byte>, maxLength: nat, status: Status): Parse<Id>
  {
    var (text, b) :- Bytes(b, MAX_ID_STRING, status);
    if MaybeIdOk(text, maxLength) then Got(text, b) else Bad(status)
  }

  // An identity behind a presence flag.
  function FlaggedId(b: seq<byte>, maxLength: nat, status: Status): Parse<Id>
  {
    var (present, b) :- Bool(b, status);
    if present then IdOf(b, maxLength, status) else Got(NO_ID, b)
  }

  function PutFlaggedId(id: Id, rest: seq<byte>): (b: seq<byte>)
    ensures forall maxLength: nat, status ::
      MaybeIdOk(id, maxLength) && maxLength <= MAX_ID_STRING ==> FlaggedId(b, maxLength, status) == Got(id, rest)
  {
    if ValidId(id) then PutBool(true, PutId(id, rest)) else PutBool(false, rest)
  }

  function OptionalId(b: seq<byte>, maxLength: nat, status: Status): Parse<Option<Id>>
  {
    var (present, b) :- Bool(b, status);
    if !present then Got(None, b)
    else
      var (id, b) :- IdOf(b, maxLength, status);
      Got(Some(id), b)
  }

  function PutOptionalId(id: Option<Id>, rest: seq<byte>): (b: seq<byte>)
    ensures forall maxLength: nat, status ::
      (id.Some? ==> IdOk(id.value, maxLength)) && maxLength <= MAX_ID_STRING ==>
        OptionalId(b, maxLength, status) == Got(id, rest)
  {
    match id
    case None => PutBool(false, rest)
    case Some(value) => PutBool(true, PutId(value, rest))
  }

  // ------------------------------------------------------------------------
  // Lists
  // ------------------------------------------------------------------------

  function Items<T>(b: seq<byte>, n: nat, get: seq<byte> -> Parse<T>): Parse<seq<T>>
    decreases n
  {
    if n == 0 then Got([], b)
    else
      var (first, b) :- get(b);
      var (others, b) :- Items(b, n - 1, get);
      Got([first] + others, b)
  }

  function PutItems<T>(xs: seq<T>, put: (T, seq<byte>) -> seq<byte>, rest: seq<byte>): seq<byte>
  {
    if xs == [] then rest else put(xs[0], PutItems(xs[1..], put, rest))
  }

  // A list behind its count, which is bounded before any element is read.
  function ListOf<T>(b: seq<byte>, limit: u64, status: Status, get: seq<byte> -> Parse<T>): Parse<seq<T>>
  {
    var (count, b) :- U64(b, status);
    if count > limit then Bad(status) else Items(b, count, get)
  }

  function PutList<T>(xs: seq<T>, put: (T, seq<byte>) -> seq<byte>, rest: seq<byte>): seq<byte>
  {
    PutU64(|xs| % TWO_64, PutItems(xs, put, rest))
  }

  // An element codec is faithful on a set of values when reading what it wrote
  // gives the value back and leaves the rest alone.
  ghost predicate Faithful<T(!new)>(xs: seq<T>, put: (T, seq<byte>) -> seq<byte>, get: seq<byte> -> Parse<T>)
  {
    forall x, rest {:trigger put(x, rest)} :: x in xs ==> get(put(x, rest)) == Got(x, rest)
  }

  lemma {:induction false} ItemsTrip<T(!new)>(
    xs: seq<T>, put: (T, seq<byte>) -> seq<byte>, get: seq<byte> -> Parse<T>, rest: seq<byte>)
    ensures Faithful(xs, put, get) ==> Items(PutItems(xs, put, rest), |xs|, get) == Got(xs, rest)
  {
    if xs != [] && Faithful(xs, put, get) {
      assert forall x :: x in xs[1..] ==> x in xs;
      ItemsTrip(xs[1..], put, get, rest);
      assert get(put(xs[0], PutItems(xs[1..], put, rest))) == Got(xs[0], PutItems(xs[1..], put, rest));
      assert [xs[0]] + xs[1..] == xs;
    }
  }

  lemma ListTrip<T(!new)>(
    xs: seq<T>, put: (T, seq<byte>) -> seq<byte>, get: seq<byte> -> Parse<T>, limit: u64, status: Status,
    rest: seq<byte>)
    ensures Faithful(xs, put, get) && |xs| <= limit ==>
              ListOf(PutList(xs, put, rest), limit, status, get) == Got(xs, rest)
  {
    ItemsTrip(xs, put, get, rest);
  }

  // ------------------------------------------------------------------------
  // The writer and the reader
  // ------------------------------------------------------------------------

  lemma {:induction false} LittleEndianAppends(x: nat, n: nat, rest: seq<byte>)
    ensures LittleEndian(x, n, rest) == LittleEndian(x, n, []) + rest
  {
    if n > 0 {
      LittleEndianAppends(x / 256, n - 1, rest);
      var tail := LittleEndian(x / 256, n - 1, []);
      assert [x % 256] + tail + rest == [x % 256] + (tail + rest);
    }
  }

  // A writer only puts its own bytes before those that follow.
  lemma WritersPrepend(x: u32, y: u64, rest: seq<byte>)
    ensures PutU32(x, rest) == PutU32(x, []) + rest
    ensures PutU64(y, rest) == PutU64(y, []) + rest
  {
    LittleEndianAppends(x, 4, rest);
    LittleEndianAppends(y, 8, rest);
  }

  class ByteWriter {
    var buffer: seq<byte>

    constructor ()
      ensures buffer == []
    {
      buffer := [];
    }

    method WriteByte(x: byte)
      modifies this
      ensures buffer == old(buffer) + [x]
    {
      buffer := buffer + [x];
    }

    // One byte at a time, least significant first.
    method WriteLittleEndian(x: nat, n: nat)
      modifies this
      ensures buffer == old(buffer) + LittleEndian(x, n, [])
    {
      var left := x;
      for i := 0 to n
        invariant buffer + LittleEndian(left, n - i, []) == old(buffer) + LittleEndian(x, n, [])
      {
        ghost var tail := LittleEndian(left / 256, n - i - 1, []);
        assert buffer + ([left % 256] + tail) == buffer + [left % 256] + tail;
        WriteByte(left % 256);
        left := left / 256;
      }
    }

    method WriteU64(x: u64)
      modifies this
      ensures buffer == old(buffer) + PutU64(x, [])
    {
      WriteLittleEndian(x, 8);
    }

    method WriteBytes(x: seq<byte>)
      modifies this
      ensures buffer == old(buffer) + PutBytes(x, [])
    {
      ghost var before := buffer;
      var length := |x| % TWO_64;
      WriteU64(length);
      LittleEndianAppends(length, 8, x);
      assert x + [] == x;
      buffer := buffer + x;
      assert before + (PutU64(length, []) + x) == before + PutU64(length, []) + x;
    }
  }

  class ByteReader {
    const bytes: seq<byte>
    var offset: nat

    ghost predicate Valid()
      reads this
    {
      offset <= |bytes|
    }

    function Remaining(): (rest: seq<byte>)
      requires Valid()
      reads this
    {
      bytes[offset..]
    }

    constructor (input: seq<byte>)
      ensures Valid() && Remaining() == input
    {
      bytes, offset := input, 0;
    }

    method Take(count: nat) returns (taken: Option<seq<byte>>)
      requires Valid()
      modifies this`offset
      ensures Valid()
      ensures count > |old(Remaining())| ==> taken.None? && Remaining() == old(Remaining())
      ensures count <= |old(Remaining())| ==>
                taken == Some(old(Remaining())[..count]) && Remaining() == old(Remaining())[count..]
    {
      if count > |bytes| - offset {
        return None;
      }
      assert bytes[offset..offset + count] == bytes[offset..][..count];
      assert bytes[offset + count..] == bytes[offset..][count..];
      taken := Some(bytes[offset..offset + count]);
      offset := offset + count;
    }

    // The bytes are gathered from the most significant down.
    method ReadLittleEndian(n: nat) returns (x: Option<nat>)
      requires Valid()
      modifies this`offset
      ensures Valid()
      ensures match FromLittleEndian(old(Remaining()), n)
              case None => x.None? && Remaining() == old(Remaining())
              case Some((value, rest)) => x == Some(value) && Remaining() == rest
    {
      FromLittleEndianBound(Remaining(), n);
      ghost var input := Remaining();
      var taken := Take(n);
      if taken.None? {
        return None;
      }
      var value: nat := 0;
      var i: nat := n;
      while i > 0
        invariant i <= n <= |input| && FromLittleEndian(input[i..], n - i) == Some((value, input[n..]))
      {
        i := i - 1;
        assert input[i..][1..] == input[i + 1..];
        value := taken.value[i] + 256 * value;
      }
      assert input[0..] == input;
      return Some(value);
    }

    method ReadU64(status: Status) returns (x: Parse<u64>)
      requires Valid()
      modifies this`offset
      ensures Valid() && x == U64(old(Remaining()), status)
      ensures Remaining() == if x.Got? then x.rest else old(Remaining())
    {
      FromLittleEndianBound(Remaining(), 8);
      Powers();
      var value := ReadLittleEndian(8);
      if value.None? {
        return Bad(status);
      }
      return Got(value.value, Remaining());
    }

    method ReadBytes(limit: u64, status: Status) returns (x: Parse<seq<byte>>)
      requires Valid()
      modifies this`offset
      ensures Valid() && x == Bytes(old(Remaining()), limit, status)
      ensures x.Got? ==> Remaining() == x.rest
    {
      var length := ReadU64(status);
      if length.Bad? || length.value > limit {
        return Bad(status);
      }
      var taken := Take(length.value);
      if taken.None? {
        return Bad(status);
      }
      return Got(taken.value, Remaining());
    }
  }
}
