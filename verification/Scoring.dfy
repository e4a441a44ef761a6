// The weighted objective (src/metrics.cpp, src/policy.cpp).

module Scoring {
  import opened Base
  import opened Metrics

  datatype ObjectiveMode = Lexicographic | WeightedScore
  {
    function Raw(): byte { if Lexicographic? then 1 else 2 }
  }

  datatype ObjectiveTerm = ObjectiveTerm(kind: MetricKind, weight: u32)

  const SCORE_FORMULA_VERSION: u32 := 1

  datatype Objective = Objective(mode: ObjectiveMode, terms: seq<ObjectiveTerm>, version: u32)
  {
    function Kinds(): seq<MetricKind> { seq(|terms|, i requires 0 <= i < |terms| => terms[i].kind) }

    predicate Valid()
    {
      && terms != []
      && version == SCORE_FORMULA_VERSION
      && (forall i :: 0 <= i < |terms| ==>
            if mode.Lexicographic? then terms[i].weight == 0
            else 0 < terms[i].weight <= BASIS_POINTS)
      && NoDuplicates(Kinds())
      && (mode.WeightedScore? ==> WeightSum(terms) == BASIS_POINTS)
    }
  }

  function WeightSum(terms: seq<ObjectiveTerm>): nat
  {
    if terms == [] then 0 else WeightSum(terms[..|terms| - 1]) + terms[|terms| - 1].weight
  }

  function TermScore(term: ObjectiveTerm, value: MetricValue): Option<i64>
  {
    if value.NoMetric? || value.kind != term.kind then None
    else
      match Normalize(value)
      case None => None
      case Some(normalized) => Checked(term.weight * normalized)
  }

  function Numerator(terms: seq<ObjectiveTerm>, values: seq<MetricValue>): Option<i64>
    requires |terms| == |values|
  {
    if terms == [] then Some(0)
    else
      var n := |terms| - 1;
      match Numerator(terms[..n], values[..n])
      case None => None
      case Some(sum) =>
        match TermScore(terms[n], values[n])
        case None => None
        case Some(weighted) => Checked(sum + weighted)
  }

  // Half-up rounding of the numerator over 10000.
  function Rounded(numerator: i64): Option<u64>
  {
    if numerator < 0 then None
    else
      FloorDivision(numerator + BASIS_POINTS / 2, BASIS_POINTS, TWO_64);
      Some((numerator + BASIS_POINTS / 2) / BASIS_POINTS)
  }

  function Score(terms: seq<ObjectiveTerm>, values: seq<MetricValue>): Option<u64>
  {
    if terms == [] || |terms| != |values| then None
    else
      match Numerator(terms, values)
      case None => None
      case Some(numerator) => Rounded(numerator)
  }

  method ComputeScore(terms: seq<ObjectiveTerm>, values: seq<MetricValue>) returns (r: Option<u64>)
    ensures r == Score(terms, values)
  {
    if terms == [] || |terms| != |values| {
      return None;
    }
    var numerator: i64 := 0;
    for i := 0 to |terms|
      invariant Numerator(terms[..i], values[..i]) == Some(numerator)
    {
      assert terms[..i + 1][..i] == terms[..i] && values[..i + 1][..i] == values[..i];
      var weighted := TermScore(terms[i], values[i]);
      var next := if weighted.None? then None else Checked(numerator + weighted.value);
      assert Numerator(terms[..i + 1], values[..i + 1]) == next;
      if next.None? {
        RefusalStays(terms, values, i + 1);
        return None;
      }
      numerator := next.value;
    }
    assert terms[..|terms|] == terms && values[..|terms|] == values;
    return Rounded(numerator);
  }

  lemma {:induction false} RefusalStays(terms: seq<ObjectiveTerm>, values: seq<MetricValue>, n: nat)
    requires n <= |terms| == |values| && Numerator(terms[..n], values[..n]).None?
    ensures Numerator(terms, values).None?
    decreases |terms| - n
  {
    if n == |terms| {
      assert terms[..n] == terms && values[..n] == values;
    } else {
      assert terms[..n + 1][..n] == terms[..n] && values[..n + 1][..n] == values[..n];
      RefusalStays(terms, values, n + 1);
    }
  }

  // ------------------------------------------------------------------------
  // Exactness and monotonicity
  // ------------------------------------------------------------------------

  ghost predicate Scorable(terms: seq<ObjectiveTerm>, values: seq<MetricValue>)
  {
    && |terms| == |values|
    && forall i :: 0 <= i < |terms| ==>
         values[i].Metric? && values[i].kind == terms[i].kind && terms[i].weight <= BASIS_POINTS
  }

  // The real weighted score, in basis points: the sum over the terms of the
  // weight times the exact position of the value inside its declared range.
  ghost function ExactScore(terms: seq<ObjectiveTerm>, values: seq<MetricValue>): real
    requires Scorable(terms, values)
  {
    if terms == [] then 0.0
    else
      var n := |terms| - 1;
      ExactScore(terms[..n], values[..n]) + ExactTerm(terms[n].weight, values[n])
  }

  ghost function ExactTerm(weight: nat, value: MetricValue): real
    requires value.Metric?
  {
    Ratio(weight, Goodness(value), value.kind.Maximum())
  }

  ghost function Ratio(weight: nat, goodness: int, span: int): real
    requires span > 0
  {
    weight as real * goodness as real / span as real
  }

  // The integer n is the real x (on the basis-point scale), rounded down with a
  // total slack of w.
  ghost predicate Brackets(n: int, x: real, w: nat)
  {
    n as real <= 10000.0 * x <= (n + w) as real && (w > 0 ==> 10000.0 * x < (n + w) as real)
  }

  lemma BracketsAdd(n: int, x: real, w: nat, n': int, x': real, w': nat)
    requires Brackets(n, x, w) && Brackets(n', x', w')
    ensures Brackets(n + n', x + x', w + w')
  {
  }

  lemma TermIsExact(term: ObjectiveTerm, value: MetricValue)
    requires value.Metric? && value.kind == term.kind && term.weight <= BASIS_POINTS
    ensures TermScore(term, value).Some?
    ensures 0 <= TermScore(term, value).value <= term.weight * BASIS_POINTS
    ensures Brackets(TermScore(term, value).value, ExactTerm(term.weight, value), term.weight)
  {
    TermIsWeighted(term, value);
    TermBrackets(term.weight, value, Normalize(value).value);
  }

  lemma TermBrackets(w: nat, value: MetricValue, n: nat)
    requires value.Metric?
    requires n * value.kind.Maximum() <= Goodness(value) * BASIS_POINTS < (n + 1) * value.kind.Maximum()
    ensures Brackets(w * n, ExactTerm(w, value), w)
  {
    RatioBounds(w, n, Goodness(value), value.kind.Maximum());
  }

  lemma TermIsWeighted(term: ObjectiveTerm, value: MetricValue)
    requires value.Metric? && value.kind == term.kind && term.weight <= BASIS_POINTS
    ensures Normalize(value).Some?
    ensures TermScore(term, value) == Some(term.weight * Normalize(value).value)
    ensures 0 <= term.weight * Normalize(value).value <= term.weight * BASIS_POINTS
    ensures var n, g, span := Normalize(value).value, Goodness(value), value.kind.Maximum();
            n * span <= g * BASIS_POINTS < (n + 1) * span
  {
    NormalizeIsExact(value);
    MulMonotone(Normalize(value).value, BASIS_POINTS, term.weight);
    MulMonotone(0, Normalize(value).value, term.weight);
    MulMonotone(term.weight, BASIS_POINTS, BASIS_POINTS);
  }

  // n <= 10000 g / span < n + 1, multiplied by the weight.
  lemma RatioBounds(w: nat, n: nat, g: nat, span: nat)
    requires span > 0 && n * span <= g * BASIS_POINTS < (n + 1) * span
    ensures Brackets(w * n, Ratio(w, g, span), w)
  {
    var exact := Ratio(w, g, span);
    assert exact * span as real == (w * g) as real;
    MulMonotone(n * span, g * BASIS_POINTS, w);
    MulMonotone(g * BASIS_POINTS + 1, (n + 1) * span, w);
    assert w * (n * span) == (w * n) * span;
    assert w * (g * BASIS_POINTS) == BASIS_POINTS * (w * g);
    assert w * ((n + 1) * span) == (w * n + w) * span;
    QuotientBounds(w * n, w * g, span, exact, w);
  }

  lemma QuotientBounds(low: nat, wg: nat, span: nat, exact: real, w: nat)
    requires span > 0 && exact * span as real == wg as real
    requires low * span <= BASIS_POINTS * wg && BASIS_POINTS * wg + w <= (low + w) * span
    ensures Brackets(low, exact, w)
  {
    CastMul(low, span);
    CastMul(low + w, span);
    ScaleBy(exact, span as real, wg as real);
    Between(low as real, (low + w) as real, 10000.0 * exact, span as real,
            (low * span) as real, ((low + w) * span) as real, (BASIS_POINTS * wg) as real);
  }

  lemma ScaleBy(x: real, s: real, p: real)
    requires x * s == p
    ensures 10000.0 * x * s == 10000.0 * p
  {
  }

  lemma Between(low: real, high: real, x: real, s: real, lowS: real, highS: real, xS: real)
    requires s > 0.0 && lowS == low * s && highS == high * s && xS == x * s
    requires lowS <= xS <= highS
    ensures low <= x <= high
    ensures xS < highS ==> x < high
  {
    Cancel(low, x, s);
    Cancel(x, high, s);
  }

  lemma {:induction false} CastMul(a: nat, b: nat)
    ensures (a * b) as real == a as real * b as real
  {
    if b > 0 {
      CastMul(a, b - 1);
      assert a * b == a * (b - 1) + a;
      assert a as real * b as real == a as real * (b - 1) as real + a as real;
    }
  }

  lemma Cancel(a: real, b: real, s: real)
    requires s > 0.0
    ensures a * s <= b * s ==> a <= b
    ensures a * s < b * s ==> a < b
  {
  }

  lemma {:induction false} NumeratorIsExact(terms: seq<ObjectiveTerm>, values: seq<MetricValue>)
    requires Scorable(terms, values) && WeightSum(terms) <= BASIS_POINTS
    ensures Numerator(terms, values).Some?
    ensures 0 <= Numerator(terms, values).value <= WeightSum(terms) * BASIS_POINTS
    ensures Brackets(Numerator(terms, values).value, ExactScore(terms, values), WeightSum(terms))
  {
    if terms != [] {
      var n := |terms| - 1;
      NumeratorIsExact(terms[..n], values[..n]);
      TermIsExact(terms[n], values[n]);
      BracketsAdd(Numerator(terms[..n], values[..n]).value, ExactScore(terms[..n], values[..n]), WeightSum(terms[..n]),
                  TermScore(terms[n], values[n]).value, ExactTerm(terms[n].weight, values[n]), terms[n].weight);
    }
  }

  // With weights that decompose unity nothing overflows, the score stays on the
  // basis-point scale, and it lies within (exact - 1.5, exact + 0.5].
  lemma ScoreIsExact(objective: Objective, values: seq<MetricValue>)
    requires objective.Valid() && objective.mode.WeightedScore? && Scorable(objective.terms, values)
    ensures Score(objective.terms, values).Some?
    ensures Score(objective.terms, values).value <= BASIS_POINTS
    ensures ExactScore(objective.terms, values) - 1.5 < Score(objective.terms, values).value as real
    ensures Score(objective.terms, values).value as real <= ExactScore(objective.terms, values) + 0.5
  {
    NumeratorIsExact(objective.terms, values);
  }

  // No metric's improvement ever lowers the score.
  lemma ScoreIsMonotone(objective: Objective, worse: seq<MetricValue>, better: seq<MetricValue>)
    requires objective.Valid() && objective.mode.WeightedScore?
    requires Scorable(objective.terms, worse) && Scorable(objective.terms, better)
    requires forall i :: 0 <= i < |worse| ==> Goodness(worse[i]) <= Goodness(better[i])
    ensures Score(objective.terms, worse).Some? && Score(objective.terms, better).Some?
    ensures Score(objective.terms, worse).value <= Score(objective.terms, better).value
  {
    NumeratorIsExact(objective.terms, worse);
    NumeratorIsExact(objective.terms, better);
    NumeratorIsMonotone(objective.terms, worse, better);
  }

  lemma {:induction false} NumeratorIsMonotone(terms: seq<ObjectiveTerm>, worse: seq<MetricValue>,
                                               better: seq<MetricValue>)
    requires Scorable(terms, worse) && Scorable(terms, better) && WeightSum(terms) <= BASIS_POINTS
    requires forall i :: 0 <= i < |worse| ==> Goodness(worse[i]) <= Goodness(better[i])
    ensures Numerator(terms, worse).Some? && Numerator(terms, better).Some?
    ensures Numerator(terms, worse).value <= Numerator(terms, better).value
  {
    NumeratorIsExact(terms, worse);
    NumeratorIsExact(terms, better);
    if terms != [] {
      var n := |terms| - 1;
      NumeratorIsMonotone(terms[..n], worse[..n], better[..n]);
      TermIsExact(terms[n], worse[n]);
      TermIsExact(terms[n], better[n]);
      NormalizeIsMonotone(worse[n], better[n]);
      MulMonotone(Normalize(worse[n]).value, Normalize(better[n]).value, terms[n].weight);
    }
  }
}
