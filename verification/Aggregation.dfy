// Deterministic aggregation of retained samples (src/metrics.cpp).

module Aggregation {
  import opened Base
  import opened Metrics

  datatype AggregationKind = Minimum | Maximum | Mean | Median | Percentile95 | Ewma
  {
    function Raw(): byte
    {
      match this
      case Minimum => 1
      case Maximum => 2
      case Mean => 3
      case Median => 4
      case Percentile95 => 5
      case Ewma => 6
    }
  }

  // ------------------------------------------------------------------------
  // Specification
  // ------------------------------------------------------------------------

  function MinOf(s: seq<i64>): i64
    requires s != []
  {
    if |s| == 1 then s[0]
    else
      var rest := MinOf(s[..|s| - 1]);
      if s[|s| - 1] < rest then s[|s| - 1] else rest
  }

  function MaxOf(s: seq<i64>): i64
    requires s != []
  {
    if |s| == 1 then s[0]
    else
      var rest := MaxOf(s[..|s| - 1]);
      if rest < s[|s| - 1] then s[|s| - 1] else rest
  }

  // The extremes are retained samples and bound all the others.
  lemma {:induction false} ExtremesBound(s: seq<i64>)
    requires s != []
    ensures MinOf(s) in s && MaxOf(s) in s
    ensures forall k :: 0 <= k < |s| ==> MinOf(s) <= s[k] <= MaxOf(s)
  {
    if |s| > 1 {
      var init := s[..|s| - 1];
      ExtremesBound(init);
      assert s == init + [s[|s| - 1]];
      assert forall k :: 0 <= k < |init| ==> init[k] == s[k];
    }
  }

  // The sum, refused as soon as one prefix leaves the signed 64-bit range.
  function CheckedSum(s: seq<i64>): Option<i64>
  {
    if s == [] then Some(0)
    else
      match CheckedSum(s[..|s| - 1])
      case None => None
      case Some(sum) => Checked(sum + s[|s| - 1])
  }

  function EwmaStep(previous: i64, sample: i64, alpha: int): Option<i64>
  {
    match Checked(alpha * sample)
    case None => None
    case Some(weighted) =>
      match Checked((BASIS_POINTS - alpha) * previous)
      case None => None
      case Some(kept) =>
        match Checked(weighted + kept)
        case None => None
        case Some(total) =>
          TruncShrinks(total, BASIS_POINTS);
          Some(TruncDiv(total, BASIS_POINTS))
  }

  lemma TruncShrinks(a: int, b: int)
    requires b > 0
    ensures a >= 0 ==> 0 <= TruncDiv(a, b) <= a
    ensures a <= 0 ==> a <= TruncDiv(a, b) <= 0
  {
    if a >= 0 { FloorDivision(a, b, 0); } else { FloorDivision(-a, b, 0); }
    MulMonotone(1, b, a / b);
    MulMonotone(1, b, -a / b);
  }

  function EwmaOf(s: seq<i64>, alpha: int): Option<i64>
    requires s != []
  {
    if |s| == 1 then Some(s[0])
    else
      match EwmaOf(s[..|s| - 1], alpha)
      case None => None
      case Some(previous) => EwmaStep(previous, s[|s| - 1], alpha)
  }

  function Insert(x: i64, s: seq<i64>): seq<i64>
  {
    if s == [] || x < s[0] then [x] + s else [s[0]] + Insert(x, s[1..])
  }

  function SortInts(s: seq<i64>): (r: seq<i64>)
    ensures |r| == |s|
  {
    if s == [] then [] else InsertLength(s[|s| - 1], SortInts(s[..|s| - 1])); Insert(s[|s| - 1], SortInts(s[..|s| - 1]))
  }

  lemma {:induction false} InsertLength(x: i64, s: seq<i64>)
    ensures |Insert(x, s)| == |s| + 1
  {
    if s != [] && x >= s[0] { InsertLength(x, s[1..]); }
  }

  // Position, in the ascending order, of the nearest-rank statistic.
  function RankIndex(percent: nat, count: nat): (index: nat)
    requires count > 0
    ensures index < count
  {
    var rank := (percent * count + 99) / 100;
    var index := if rank == 0 then 0 else rank - 1;
    if index >= count then count - 1 else index
  }

  function NearestRank(s: seq<i64>, percent: nat): i64
    requires s != []
  {
    SortInts(s)[RankIndex(percent, |s|)]
  }

  function Aggregate(kind: AggregationKind, s: seq<i64>, alpha: u32): Option<i64>
  {
    if s == [] then None
    else
      match kind
      case Minimum => Some(MinOf(s))
      case Maximum => Some(MaxOf(s))
      case Mean =>
        (match CheckedSum(s)
         case None => None
         case Some(sum) => TruncShrinks(sum, |s|); Some(TruncDiv(sum, |s|)))
      case Median => Some(NearestRank(s, 50))
      case Percentile95 => Some(NearestRank(s, 95))
      case Ewma => if alpha > BASIS_POINTS then None else EwmaOf(s, alpha)
  }

  // ------------------------------------------------------------------------
  // The loops
  // ------------------------------------------------------------------------

  method AggregateSamples(kind: AggregationKind, s: seq<i64>, alpha: u32) returns (r: Option<i64>)
    ensures r == Aggregate(kind, s, alpha)
  {
    if s == [] {
      return None;
    }
    match kind
    case Minimum =>
      var m := Extreme(s, true);
      return Some(m);
    case Maximum =>
      var m := Extreme(s, false);
      return Some(m);
    case Mean =>
      r := MeanLoop(s);
    case Median =>
      return Some(NearestRank(s, 50));
    case Percentile95 =>
      return Some(NearestRank(s, 95));
    case Ewma =>
      if alpha > BASIS_POINTS {
        return None;
      }
      r := EwmaLoop(s, alpha);
  }

  method Extreme(s: seq<i64>, smallest: bool) returns (m: i64)
    requires s != []
    ensures m == if smallest then MinOf(s) else MaxOf(s)
  {
    m := s[0];
    for i := 1 to |s|
      invariant m == if smallest then MinOf(s[..i]) else MaxOf(s[..i])
    {
      assert s[..i + 1][..i] == s[..i];
      if smallest && s[i] < m {
        m := s[i];
      } else if !smallest && m < s[i] {
        m := s[i];
      }
    }
    assert s[..|s|] == s;
  }

  method MeanLoop(s: seq<i64>) returns (r: Option<i64>)
    requires s != []
    ensures r == Aggregate(Mean, s, 0)
  {
    var sum: i64 := 0;
    for i := 0 to |s|
      invariant CheckedSum(s[..i]) == Some(sum)
    {
      assert s[..i + 1][..i] == s[..i];
      var next := Checked(sum + s[i]);
      if next.None? {
        OverflowStays(s, i + 1);
        return None;
      }
      sum := next.value;
    }
    assert s[..|s|] == s;
    TruncShrinks(sum, |s|);
    return Some(TruncDiv(sum, |s|));
  }

  lemma {:induction false} OverflowStays(s: seq<i64>, n: nat)
    requires n <= |s| && CheckedSum(s[..n]).None?
    ensures CheckedSum(s).None?
    decreases |s| - n
  {
    if n == |s| {
      assert s[..n] == s;
    } else {
      assert s[..n + 1][..n] == s[..n];
      OverflowStays(s, n + 1);
    }
  }

  method EwmaLoop(s: seq<i64>, alpha: u32) returns (r: Option<i64>)
    requires s != [] && alpha <= BASIS_POINTS
    ensures r == EwmaOf(s, alpha)
  {
    var ewma := s[0];
    for i := 1 to |s|
      invariant EwmaOf(s[..i], alpha) == Some(ewma)
    {
      assert s[..i + 1][..i] == s[..i];
      var next := EwmaStep(ewma, s[i], alpha);
      assert EwmaOf(s[..i + 1], alpha) == next;
      if next.None? {
        EwmaOverflowStays(s, alpha, i + 1);
        return None;
      }
      ewma := next.value;
    }
    assert s[..|s|] == s;
    return Some(ewma);
  }

  lemma {:induction false} EwmaOverflowStays(s: seq<i64>, alpha: int, n: nat)
    requires 0 < n <= |s| && EwmaOf(s[..n], alpha).None?
    ensures EwmaOf(s, alpha).None?
    decreases |s| - n
  {
    if n == |s| {
      assert s[..n] == s;
    } else {
      assert s[..n + 1][..n] == s[..n];
      EwmaOverflowStays(s, alpha, n + 1);
    }
  }

  // ------------------------------------------------------------------------
  // The nearest-rank counting law
  // ------------------------------------------------------------------------

  function CountBelow(s: seq<i64>, v: i64): nat
  {
    if s == [] then 0
    else CountBelow(s[..|s| - 1], v) + (if s[|s| - 1] < v then 1 else 0)
  }

  function CountAtMost(s: seq<i64>, v: i64): nat
  {
    if s == [] then 0
    else CountAtMost(s[..|s| - 1], v) + (if s[|s| - 1] <= v then 1 else 0)
  }

  ghost predicate Ascending(s: seq<i64>)
  {
    forall i, j :: 0 <= i <= j < |s| ==> s[i] <= s[j]
  }

  lemma {:induction false} CountsOfConcat(a: seq<i64>, b: seq<i64>, v: i64)
    ensures CountBelow(a + b, v) == CountBelow(a, v) + CountBelow(b, v)
    ensures CountAtMost(a + b, v) == CountAtMost(a, v) + CountAtMost(b, v)
  {
    if b == [] {
      assert a + b == a;
    } else {
      assert (a + b)[..|a + b| - 1] == a + b[..|b| - 1];
      CountsOfConcat(a, b[..|b| - 1], v);
    }
  }

  lemma {:induction false} InsertFacts(x: i64, s: seq<i64>, v: i64)
    ensures CountBelow(Insert(x, s), v) == CountBelow(s, v) + (if x < v then 1 else 0)
    ensures CountAtMost(Insert(x, s), v) == CountAtMost(s, v) + (if x <= v then 1 else 0)
    ensures multiset(Insert(x, s)) == multiset(s) + multiset{x}
  {
    CountsOfConcat([x], s, v);
    assert CountBelow([x], v) == CountBelow([x][..0], v) + (if x < v then 1 else 0);
    assert CountAtMost([x], v) == CountAtMost([x][..0], v) + (if x <= v then 1 else 0);
    if s != [] && x >= s[0] {
      assert s == [s[0]] + s[1..];
      InsertFacts(x, s[1..], v);
      CountsOfConcat([s[0]], s[1..], v);
      CountsOfConcat([s[0]], Insert(x, s[1..]), v);
    }
  }

  lemma {:induction false} InsertAscending(x: i64, s: seq<i64>)
    requires Ascending(s)
    ensures Ascending(Insert(x, s))
    ensures s == [] || x < s[0] ==> Insert(x, s)[0] == x
    ensures s != [] && x >= s[0] ==> Insert(x, s)[0] == s[0]
  {
    if s != [] && x >= s[0] {
      InsertAscending(x, s[1..]);
    }
  }

  // Sorting keeps the samples and their counts, and orders them.
  lemma {:induction false} SortFacts(s: seq<i64>, v: i64)
    ensures Ascending(SortInts(s))
    ensures multiset(SortInts(s)) == multiset(s)
    ensures CountBelow(SortInts(s), v) == CountBelow(s, v)
    ensures CountAtMost(SortInts(s), v) == CountAtMost(s, v)
  {
    if s != [] {
      hide Ascending, Insert;
      var x, rest := s[|s| - 1], s[..|s| - 1];
      assert s == rest + [x];
      SortFacts(rest, v);
      InsertFacts(x, SortInts(rest), v);
      InsertAscending(x, SortInts(rest));
    }
  }

  lemma {:induction false} CountBounds(s: seq<i64>, v: i64)
    ensures (forall i :: 0 <= i < |s| ==> s[i] >= v) ==> CountBelow(s, v) == 0
    ensures (forall i :: 0 <= i < |s| ==> s[i] <= v) ==> CountAtMost(s, v) == |s|
    ensures CountBelow(s, v) <= |s|
  {
    if s != [] { CountBounds(s[..|s| - 1], v); }
  }

  lemma CountsAtIndex(s: seq<i64>, k: nat)
    requires Ascending(s) && k < |s|
    ensures CountBelow(s, s[k]) <= k < CountAtMost(s, s[k])
  {
    assert CountBelow(s, s[k]) <= k by { SplitCounts(s, k, s[k]); }
    assert k < CountAtMost(s, s[k]) by { SplitCounts(s, k + 1, s[k]); }
  }

  lemma SplitCounts(s: seq<i64>, k: nat, v: i64)
    requires k <= |s|
    ensures (forall i :: k <= i < |s| ==> s[i] >= v) ==> CountBelow(s, v) <= k
    ensures (forall i :: 0 <= i < k ==> s[i] <= v) ==> k <= CountAtMost(s, v)
  {
    assert s == s[..k] + s[k..];
    CountsOfConcat(s[..k], s[k..], v);
    CountBounds(s[..k], v);
    CountBounds(s[k..], v);
  }

  // The statistic is a retained sample, fewer than percent% of the samples lie
  // strictly below it and at least percent% lie at or below it.
  lemma NearestRankLaw(s: seq<i64>, percent: nat)
    requires s != [] && 1 <= percent <= 100
    ensures NearestRank(s, percent) in s
    ensures 100 * CountBelow(s, NearestRank(s, percent)) < percent * |s|
    ensures percent * |s| <= 100 * CountAtMost(s, NearestRank(s, percent))
  {
    var sorted, k := SortInts(s), RankIndex(percent, |s|);
    SortFacts(s, sorted[k]);
    CountsAtIndex(sorted, k);
    MulMonotone(percent, 100, |s|);
    MulMonotone(1, percent, |s|);
    assert sorted[k] in multiset(sorted);
  }

  // The law leaves no freedom: it determines the statistic.
  lemma NearestRankUnique(s: seq<i64>, percent: nat, v: i64)
    requires s != [] && 1 <= percent <= 100
    requires 100 * CountBelow(s, v) < percent * |s| <= 100 * CountAtMost(s, v)
    ensures v in s ==> v == NearestRank(s, percent)
  {
    NearestRankLaw(s, percent);
    CountOrder(s, v, NearestRank(s, percent));
    CountOrder(s, NearestRank(s, percent), v);
  }

  lemma {:induction false} CountOrder(s: seq<i64>, v: i64, w: i64)
    ensures v < w ==> CountAtMost(s, v) <= CountBelow(s, w)
  {
    if s != [] { CountOrder(s[..|s| - 1], v, w); }
  }

  // ------------------------------------------------------------------------
  // Closure and exactness
  // ------------------------------------------------------------------------

  // The largest sample any metric kind admits.
  const SAMPLE_MAX: i64 := 4_000_000_000

  ghost predicate Within(s: seq<i64>, low: int, high: int)
  {
    forall i :: 0 <= i < |s| ==> low <= s[i] <= high
  }

  lemma {:induction false} SumIsExact(s: seq<i64>, low: nat, high: nat)
    requires Within(s, low, high) && high <= SAMPLE_MAX && |s| <= 1_000_000
    ensures CheckedSum(s).Some?
    ensures low * |s| <= CheckedSum(s).value <= high * |s|
  {
    if s != [] {
      SumIsExact(s[..|s| - 1], low, high);
      assert high * |s| == high * (|s| - 1) + high;
      assert low * |s| == low * (|s| - 1) + low;
      MulMonotone(high, SAMPLE_MAX, |s|);
    }
  }

  lemma EwmaStepWithin(previous: i64, sample: i64, alpha: nat, low: nat, high: nat)
    requires low <= previous <= high && low <= sample <= high && high <= SAMPLE_MAX
    requires alpha <= BASIS_POINTS
    ensures EwmaStep(previous, sample, alpha).Some?
    ensures low <= EwmaStep(previous, sample, alpha).value <= high
    ensures var e := EwmaStep(previous, sample, alpha).value;
            var total := alpha * sample + (BASIS_POINTS - alpha) * previous;
            BASIS_POINTS * e <= total < BASIS_POINTS * e + BASIS_POINTS
  {
    BlendWithin(previous, sample, alpha, low, high);
  }

  lemma BlendWithin(previous: int, sample: int, alpha: nat, low: nat, high: nat)
    requires low <= previous <= high && low <= sample <= high && alpha <= BASIS_POINTS
    ensures 0 <= alpha * sample <= BASIS_POINTS * high
    ensures 0 <= (BASIS_POINTS - alpha) * previous <= BASIS_POINTS * high
    ensures BASIS_POINTS * low <= alpha * sample + (BASIS_POINTS - alpha) * previous <= BASIS_POINTS * high
  {
    ProductWithin(alpha, sample, low, high);
    ProductWithin(BASIS_POINTS - alpha, previous, low, high);
    assert (BASIS_POINTS - alpha) * low == BASIS_POINTS * low - alpha * low;
    assert (BASIS_POINTS - alpha) * high == BASIS_POINTS * high - alpha * high;
  }

  lemma ProductWithin(k: nat, x: int, low: nat, high: nat)
    requires low <= x <= high
    ensures 0 <= k * low <= k * x <= k * high
  {
    MulMonotone(low, x, k);
    MulMonotone(x, high, k);
    MulMonotone(0, low, k);
  }

  lemma {:induction false} EwmaWithin(s: seq<i64>, alpha: nat, low: nat, high: nat)
    requires s != [] && Within(s, low, high) && high <= SAMPLE_MAX && alpha <= BASIS_POINTS
    ensures EwmaOf(s, alpha).Some? && low <= EwmaOf(s, alpha).value <= high
  {
    if |s| > 1 {
      EwmaWithin(s[..|s| - 1], alpha, low, high);
      EwmaStepWithin(EwmaOf(s[..|s| - 1], alpha).value, s[|s| - 1], alpha, low, high);
    }
  }

  // Every aggregation of samples a metric kind can hold succeeds and lies
  // between the smallest and the largest retained sample.
  lemma AggregateIsClosed(kind: AggregationKind, s: seq<i64>, alpha: u32, low: nat, high: nat)
    requires s != [] && |s| <= 1_000_000 && Within(s, low, high) && high <= SAMPLE_MAX
    requires kind.Ewma? ==> alpha <= BASIS_POINTS
    ensures Aggregate(kind, s, alpha).Some?
    ensures low <= Aggregate(kind, s, alpha).value <= high
  {
    match kind
    case Minimum => ExtremesBound(s);
    case Maximum => ExtremesBound(s);
    case Mean =>
      SumIsExact(s, low, high);
      var sum := CheckedSum(s).value;
      FloorDivision(sum, |s|, low);
      FloorDivision(sum, |s|, high + 1);
      MulMonotone(high, high + 1, |s|);
      assert (high + 1) * |s| == high * |s| + |s|;
    case Median => NearestRankLaw(s, 50);
    case Percentile95 => NearestRankLaw(s, 95);
    case Ewma => EwmaWithin(s, alpha, low, high);
  }

  // The documented mean is the floor of the sum over the count. The division
  // truncates instead, so the two agree exactly when the sum is not negative
  // or divides evenly.
  lemma MeanIsFloor(s: seq<i64>)
    requires s != [] && CheckedSum(s).Some?
    ensures var sum := CheckedSum(s).value;
            Aggregate(Mean, s, 0) == Some(sum / |s|) <==> sum >= 0 || sum % |s| == 0
  {
    var sum: int := CheckedSum(s).value;
    var n := |s|;
    if sum < 0 {
      FloorDivision(-sum, n, 0);
      NegativeFloor(sum, n);
    }
  }

  lemma NegativeFloor(a: int, n: int)
    requires a < 0 && n > 0
    ensures -(-a / n) == a / n <==> a % n == 0
  {
    var q, m := -a / n, a / n;
    assert -a == q * n + (-a) % n && a == m * n + a % n;
    assert -q == m ==> q * n == -(m * n);
    if a % n == 0 {
      assert -a == (-m) * n;
      DivisionUnique(-a, n, -m);
    }
  }

  lemma DivisionUnique(a: int, n: int, q: int)
    requires n > 0 && a == q * n
    ensures a / n == q
  {
    var d := a / n;
    assert d * n <= a < d * n + n;
    if d < q { MulMonotone(d + 1, q, n); assert false; }
    if q < d { MulMonotone(q + 1, d, n); assert false; }
  }

  lemma MeanOfNegativesIsNotFloor()
    ensures Aggregate(Mean, [-1, 0], 0) == Some(0) && (-1 + 0) / 2 == -1
  {
    var s: seq<i64> := [-1, 0];
    assert s[..1] == [-1] && s[..1][..0] == [];
    assert CheckedSum(s[..1][..0]) == Some(0);
    assert CheckedSum(s[..1]) == Some(-1);
  }

  // The average the fixed-point EWMA approximates, over the reals.
  ghost function RealEwma(s: seq<i64>, alpha: nat): real
    requires s != []
  {
    if |s| == 1 then s[0] as real
    else Blend(alpha, s[|s| - 1] as real, RealEwma(s[..|s| - 1], alpha))
  }

  // Rounding down at every step never overshoots and loses less than
  // 10000/alpha in total, however many samples are averaged.
  lemma {:induction false} EwmaError(s: seq<i64>, alpha: nat)
    requires s != [] && Within(s, 0, SAMPLE_MAX) && 0 < alpha <= BASIS_POINTS
    ensures EwmaOf(s, alpha).Some?
    ensures BelowWithin(RealEwma(s, alpha), EwmaOf(s, alpha).value, alpha)
  {
    if |s| > 1 {
      var init, x := s[..|s| - 1], s[|s| - 1];
      EwmaError(init, alpha);
      EwmaWithin(init, alpha, 0, SAMPLE_MAX);
      var e := EwmaOf(init, alpha).value;
      EwmaStepWithin(e, x, alpha, 0, SAMPLE_MAX);
      EwmaErrorStep(alpha, x, e, RealEwma(init, alpha), EwmaStep(e, x, alpha).value);
    }
  }

  // The integer average e never exceeds the real one and falls short of it by
  // less than 10000/alpha.
  ghost predicate BelowWithin(exact: real, e: int, alpha: nat)
  {
    Small(alpha as real, exact - e as real)
  }

  ghost predicate Small(a: real, d: real) { 0.0 <= d && a * d < 10000.0 }

  ghost function Blend(alpha: nat, x: real, r: real): real
  {
    (alpha as real * x + (BASIS_POINTS - alpha) as real * r) / 10000.0
  }

  lemma EwmaErrorStep(alpha: nat, x: int, e: int, r: real, e': int)
    requires 0 < alpha <= BASIS_POINTS && BelowWithin(r, e, alpha)
    requires BASIS_POINTS * e' <= alpha * x + (BASIS_POINTS - alpha) * e < BASIS_POINTS * e' + BASIS_POINTS
    ensures BelowWithin(Blend(alpha, x as real, r), e', alpha)
  {
    var a, c, d := alpha as real, (BASIS_POINTS - alpha) as real, r - e as real;
    var total := alpha * x + (BASIS_POINTS - alpha) * e;
    assert total as real == a * x as real + c * e as real;
    Distribute(c, e as real, d);
    var r' := Blend(alpha, x as real, r);
    assert 10000.0 * r' == total as real + c * d;
    ErrorContracts(a, c, d, r' - e' as real, total as real - 10000.0 * e' as real);
  }

  // One step keeps the error below 10000/a: the old error shrinks by c/10000
  // and the rounding adds less than one.
  lemma ErrorContracts(a: real, c: real, d: real, d': real, fraction: real)
    requires 0.0 < a && 0.0 <= c && a + c == 10000.0
    requires Small(a, d) && 0.0 <= fraction < 10000.0
    requires 10000.0 * d' == fraction + c * d
    ensures Small(a, d')
  {
    var p, u, q := a * d, a * fraction, a * d';
    RealMul(p, 10000.0, c);
    RealMulStrict(fraction, 10000.0, a);
    assert u == fraction * a;
    Distribute(a, fraction, c * d);
    Exchange(a, c, d, p);
    Exchange(a, 10000.0, d', q);
    Average(a, c, u, p * c, q);
    RealMul(0.0, d, c);
  }

  lemma Average(a: real, c: real, u: real, v: real, q: real)
    requires a + c == 10000.0 && u < 10000.0 * a && v <= 10000.0 * c && 10000.0 * q == u + v
    ensures q < 10000.0
  {
  }

  lemma Distribute(a: real, x: real, y: real)
    ensures a * (x + y) == a * x + a * y
  {
  }

  lemma Exchange(a: real, c: real, d: real, p: real)
    requires p == a * d
    ensures a * (c * d) == p * c
  {
  }

  lemma RealMul(x: real, y: real, z: real)
    ensures x <= y && 0.0 <= z ==> x * z <= y * z
  {
  }

  lemma RealMulStrict(x: real, y: real, z: real)
    ensures x < y && 0.0 < z ==> x * z < y * z
  {
  }

  // ------------------------------------------------------------------------
  // What each kind of aggregate is
  // ------------------------------------------------------------------------

  // The plain sum, without bounds.
  function Total(s: seq<i64>): int
  {
    if s == [] then 0 else Total(s[..|s| - 1]) + s[|s| - 1]
  }

  lemma {:induction false} CheckedSumIsTotal(s: seq<i64>)
    ensures CheckedSum(s).Some? <==> forall n :: 0 <= n <= |s| ==> Checked(Total(s[..n])).Some?
    ensures CheckedSum(s).Some? ==> CheckedSum(s).value == Total(s)
  {
    assert s[..|s|] == s;
    if s != [] {
      var init := s[..|s| - 1];
      CheckedSumIsTotal(init);
      assert forall n :: 0 <= n <= |init| ==> init[..n] == s[..n];
      assert Total(s) == Total(init) + s[|s| - 1];
    }
  }

  // The value is a sample, and fewer than the given percentage of the samples
  // lie below it while at least that percentage do not lie above it.
  ghost predicate HasRank(s: seq<i64>, percent: nat, v: i64)
  {
    v in s && 100 * CountBelow(s, v) < percent * |s| <= 100 * CountAtMost(s, v)
  }

  // The quotient rounded toward zero.
  ghost predicate Truncates(sum: int, n: nat, v: int)
  {
    if sum >= 0 then v * n <= sum < (v + 1) * n else (v - 1) * n < sum <= v * n
  }

  ghost predicate IsAggregate(kind: AggregationKind, s: seq<i64>, alpha: nat, v: i64)
    requires s != []
  {
    match kind
    case Minimum => v in s && forall i :: 0 <= i < |s| ==> v <= s[i]
    case Maximum => v in s && forall i :: 0 <= i < |s| ==> s[i] <= v
    case Mean => Truncates(Total(s), |s|, v)
    case Median => HasRank(s, 50, v)
    case Percentile95 => HasRank(s, 95, v)
    case Ewma => BelowWithin(RealEwma(s, alpha), v, alpha)
  }

  lemma TruncDivTruncates(sum: int, n: nat)
    requires n > 0
    ensures Truncates(sum, n, TruncDiv(sum, n))
  {
    if sum >= 0 {
      FloorDivision(sum, n, 0);
    } else {
      FloorDivision(-sum, n, 0);
      var q := -sum / n;
      assert (-q - 1) * n == -((q + 1) * n) && -q * n == -(q * n);
    }
  }

  // The order statistics of any samples are what their names say, whatever the
  // smoothing factor is.
  lemma OrderStatisticIsExact(kind: AggregationKind, s: seq<i64>, alpha: u32)
    requires s != [] && !kind.Mean? && !kind.Ewma?
    ensures Aggregate(kind, s, alpha).Some? && IsAggregate(kind, s, alpha, Aggregate(kind, s, alpha).value)
  {
    match kind
    case Minimum => ExtremesBound(s);
    case Maximum => ExtremesBound(s);
    case Median => NearestRankLaw(s, 50);
    case Percentile95 => NearestRankLaw(s, 95);
  }

  // The mean exists exactly when no partial sum leaves the signed 64-bit range,
  // and then it is the sum over the count, rounded toward zero.
  lemma MeanIsExact(s: seq<i64>, alpha: u32)
    requires s != []
    ensures Aggregate(Mean, s, alpha).Some? <==> forall n :: 0 <= n <= |s| ==> Checked(Total(s[..n])).Some?
    ensures Aggregate(Mean, s, alpha).Some? ==> IsAggregate(Mean, s, alpha, Aggregate(Mean, s, alpha).value)
  {
    CheckedSumIsTotal(s);
    if CheckedSum(s).Some? {
      TruncDivTruncates(CheckedSum(s).value, |s|);
    }
  }

  // Over samples a metric kind can hold every aggregate exists and is the
  // statistic its kind names.
  lemma AggregateIsExact(kind: AggregationKind, s: seq<i64>, alpha: u32)
    requires s != [] && |s| <= 1_000_000 && Within(s, 0, SAMPLE_MAX)
    requires kind.Ewma? ==> 0 < alpha <= BASIS_POINTS
    ensures Aggregate(kind, s, alpha).Some? && IsAggregate(kind, s, alpha, Aggregate(kind, s, alpha).value)
  {
    hide IsAggregate;
    AggregateIsClosed(kind, s, alpha, 0, SAMPLE_MAX);
    if kind.Mean? {
      MeanIsExact(s, alpha);
    } else if kind.Ewma? {
      SmoothedIsExact(s, alpha);
    } else {
      OrderStatisticIsExact(kind, s, alpha);
    }
  }

  lemma SmoothedIsExact(s: seq<i64>, alpha: u32)
    requires s != [] && Within(s, 0, SAMPLE_MAX) && 0 < alpha <= BASIS_POINTS
    ensures Aggregate(Ewma, s, alpha).Some? && IsAggregate(Ewma, s, alpha, Aggregate(Ewma, s, alpha).value)
  {
    hide BelowWithin;
    EwmaError(s, alpha);
  }
}
