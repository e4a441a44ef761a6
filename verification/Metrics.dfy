// Metric kinds, bounded metric values, relative improvement and normalisation
// (src/metrics.cpp).

module Metrics {
  import opened Base

  const BASIS_POINTS: int := 10000

  datatype MetricKind =
    | PathUtilization | LinkUtilization | PathLatency | QueuePressure | PacketLoss
    | ErrorRate | HealthDegradation | CongestionScore | PathQuality | OperatorPolicySignal
  {
    function Raw(): byte
    {
      match this
      case PathUtilization => 1
      case LinkUtilization => 2
      case PathLatency => 3
      case QueuePressure => 4
      case PacketLoss => 5
      case ErrorRate => 6
      case HealthDegradation => 7
      case CongestionScore => 8
      case PathQuality => 9
      case OperatorPolicySignal => 10
    }

    // The unit's stable number: basis points, microseconds, ppm or flag.
    function Unit(): byte
    {
      match this
      case PathLatency => 2
      case PacketLoss => 3
      case ErrorRate => 3
      case OperatorPolicySignal => 5
      case _ => 1
    }

    predicate LowerIsBetter() { !PathQuality? && !OperatorPolicySignal? }

    // Every declared range starts at zero.
    function Maximum(): i64
    {
      match this
      case PathLatency => 4_000_000_000
      case PacketLoss => 1_000_000
      case ErrorRate => 1_000_000
      case OperatorPolicySignal => 1
      case _ => BASIS_POINTS
    }
  }

  const METRIC_SEMANTICS_VERSION: u32 := 1

  // MetricValue is only built by checked factories, so a valid one is always
  // inside the range its kind declares.
  datatype AnyMetric = NoMetric | Metric(kind: MetricKind, value: i64)
  {
    predicate InRange() { Metric? ==> 0 <= value <= kind.Maximum() }

    // The stored number; a value that is not valid holds zero.
    function Amount(): i64 { if Metric? then value else 0 }
  }
  type MetricValue = m: AnyMetric | m.InRange() witness NoMetric
  type Reading = m: AnyMetric | m.Metric? && m.InRange() witness Metric(PathUtilization, 0)

  function MakeMetric(kind: MetricKind, value: i64): Option<MetricValue>
  {
    if 0 <= value <= kind.Maximum() then Some(Metric(kind, value)) else None
  }

  predicate Comparable(a: MetricValue, b: MetricValue)
  {
    a.Metric? && b.Metric? && a.kind == b.kind
  }

  predicate Better(kind: MetricKind, a: int, b: int)
  {
    if kind.LowerIsBetter() then a < b else a > b
  }

  // How bad a value is, on one scale for both orientations.
  function Badness(m: MetricValue): int
    requires m.Metric?
  {
    if m.kind.LowerIsBetter() then m.value else -m.value
  }

  function Clamp(x: int): u32 { if x <= 0 then 0 else if x >= BASIS_POINTS then BASIS_POINTS else x }

  // Improvement of candidate over current in basis points.
  function RelativeImprovement(current: MetricValue, candidate: MetricValue): Option<u32>
  {
    if !Comparable(current, candidate) then None
    else if !Better(current.kind, candidate.value, current.value) then Some(0)
    else
      match Checked(candidate.value - current.value)
      case None => None
      case Some(signed) =>
        var delta := if signed < 0 then -signed else signed;
        // A metric value is never negative, so it is its own absolute value.
        if current.value == 0 then Some(BASIS_POINTS)
        else
          match Checked(delta * BASIS_POINTS)
          case None => None
          case Some(scaled) => Some(Clamp(TruncDiv(scaled, current.value)))
  }

  // Two comparable values always have an improvement; a claimed improvement of
  // r basis points means the move covers r/10000 of the current value and,
  // below the cap, not (r+1)/10000 of it.
  lemma ImprovementIsExact(current: MetricValue, candidate: MetricValue)
    requires Comparable(current, candidate)
    ensures RelativeImprovement(current, candidate).Some?
    ensures var r := RelativeImprovement(current, candidate).value;
            var gain := Badness(current) - Badness(candidate);
            && r <= BASIS_POINTS
            && (gain <= 0 ==> r == 0)
            && (gain > 0 ==> r * current.value <= gain * BASIS_POINTS)
            && (gain > 0 && r < BASIS_POINTS ==> gain * BASIS_POINTS < (r + 1) * current.value)
  {
    if Better(current.kind, candidate.value, current.value) && current.value != 0 {
      var gain := Badness(current) - Badness(candidate);
      FloorDivision(gain * BASIS_POINTS, current.value, BASIS_POINTS);
    }
  }

  // An improvement one way excludes any improvement the other way.
  lemma ImprovementIsOneWay(a: MetricValue, b: MetricValue)
    requires Comparable(a, b) && RelativeImprovement(a, b).value > 0
    ensures RelativeImprovement(b, a) == Some(0)
  {
    ImprovementIsExact(a, b);
  }

  function Goodness(m: MetricValue): int
    requires m.Metric?
  {
    if m.kind.LowerIsBetter() then m.kind.Maximum() - m.value else m.value
  }

  function Normalize(m: MetricValue): Option<u32>
  {
    if m.NoMetric? then None
    else
      var goodness := Goodness(m);
      if goodness <= 0 then Some(0)
      else
        match Checked(goodness * BASIS_POINTS)
        case None => None
        case Some(scaled) => Some(Clamp(TruncDiv(scaled, m.kind.Maximum())))
  }

  // Normalisation is total on valid values, rounds the exact ratio down and
  // hits 10000 exactly at the best representable value.
  lemma NormalizeIsExact(m: MetricValue)
    requires m.Metric?
    ensures Normalize(m).Some?
    ensures var n := Normalize(m).value;
            && n <= BASIS_POINTS
            && n * m.kind.Maximum() <= Goodness(m) * BASIS_POINTS < (n + 1) * m.kind.Maximum()
            && (n == BASIS_POINTS <==> Goodness(m) == m.kind.Maximum())
  {
    FloorDivision(Goodness(m) * BASIS_POINTS, m.kind.Maximum(), BASIS_POINTS);
  }

  lemma NormalizeIsMonotone(a: MetricValue, b: MetricValue)
    requires a.Metric? && b.Metric? && a.kind == b.kind && Goodness(a) <= Goodness(b)
    ensures Normalize(a).Some? && Normalize(b).Some?
    ensures Normalize(a).value <= Normalize(b).value
  {
    NormalizeIsExact(a);
    NormalizeIsExact(b);
    var na, nb, span := Normalize(a).value, Normalize(b).value, a.kind.Maximum();
    MulMonotone(nb + 1, na, span);
  }
}
