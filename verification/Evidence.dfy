// The evidence store: bounded per-series retention, the two-pass batch and the
// choice of the series a requirement is resolved from (src/fabric_evidence.cpp,
// src/evidence.cpp).

module Evidence {
  import opened Base
  import opened Metrics
  import opened Aggregation
  import opened Outcomes

  datatype Quality = Primary | Aggregated | Operator | Estimated
  {
    function Raw(): byte
    {
      match this
      case Primary => 1
      case Aggregated => 2
      case Operator => 3
      case Estimated => 4
    }

    // A higher rank is trusted more.
    function Rank(): nat { 5 - Raw() }
  }

  datatype Requirement = Requirement(
    kind: MetricKind, aggregation: AggregationKind, alpha: u32, minSamples: u32,
    maxAge: Ticks, minWindow: Ticks, minQuality: Quality, required: bool)
  {
    predicate Valid()
    {
      && minSamples != 0
      && maxAge != 0
      && (if aggregation.Ewma? then 0 < alpha <= BASIS_POINTS else alpha == 0)
      && minWindow <= maxAge
    }
  }

  datatype Key = Key(source: Id, path: Id, kind: MetricKind)
  datatype Sample = Sample(value: MetricValue, acceptedAt: Ticks, sequence: u64)
  datatype Series = Series(generation: u64, quality: Quality, samples: seq<Sample>, published: u64)
  datatype Store = Store(series: map<Key, Series>, watermark: u64)

  datatype Publication = Publication(
    source: Id, generation: u64, quality: Quality, path: Id, value: MetricValue, sequence: u64)
  {
    predicate WellFormed()
    {
      ValidId(source) && generation != 0 && ValidId(path) && value.Metric?
    }

    function Slot(): Key
      requires value.Metric?
    {
      Key(source, path, value.kind)
    }
  }

  // What bounds the store, and the paths the caller may publish for.
  datatype Admission = Admission(authorized: set<Id>, maxSources: u64, maxSamples: u64)

  function Sources(store: Store): set<Id>
  {
    set k | k in store.series :: k.source
  }

  function LastSequence(s: Series): u64
  {
    if s.samples == [] then 0 else s.samples[|s.samples| - 1].sequence
  }

  // ------------------------------------------------------------------------
  // One checked publication
  // ------------------------------------------------------------------------

  function OrderRefusal(generation: u64, quality: Quality, last: u64, p: Publication): Option<Outcome>
  {
    if generation != 0 && p.generation < generation then Some(STALE_EVIDENCE)
    else if generation != 0 && p.generation == generation && quality != p.quality then Some(MALFORMED_REQUEST)
    else if p.generation == generation && last != 0 && p.sequence <= last then Some(STALE_EVIDENCE)
    else None
  }

  function Refusal(store: Store, p: Publication, a: Admission): Option<Outcome>
  {
    if !p.WellFormed() then Some(MALFORMED_REQUEST)
    else if p.path !in a.authorized then Some(UNAUTHORIZED_SCOPE)
    else if p.Slot() in store.series then
      var s := store.series[p.Slot()];
      OrderRefusal(s.generation, s.quality, LastSequence(s), p)
    else if p.source !in Sources(store) && |Sources(store)| >= a.maxSources then Some(RESOURCE_LIMIT)
    else None
  }

  // A watermark that is exhausted stays where it is.
  function Advanced(watermark: u64): u64
  {
    match Next(watermark)
    case None => watermark
    case Some(w) => w
  }

  predicate Reborn(store: Store, p: Publication)
    requires p.value.Metric?
  {
    p.Slot() in store.series && p.generation > store.series[p.Slot()].generation
  }

  function Grown(base: Series, p: Publication, now: Ticks, bound: nat): Series
  {
    base.(
      samples := Trimmed(base.samples + [Sample(p.value, now, p.sequence)], bound),
      published := WrapAdd(base.published, 1))
  }

  // The series of the publication's slot afterwards. A new incarnation drops
  // the samples of the old one instead of mixing them.
  function NextSeries(store: Store, p: Publication, now: Ticks, bound: nat): Series
    requires p.value.Metric?
  {
    if p.Slot() !in store.series then Grown(Series(p.generation, p.quality, [], 0), p, now, bound)
    else
      var s := store.series[p.Slot()];
      if Reborn(store, p) then
        Grown(s.(samples := [], generation := p.generation, quality := p.quality), p, now, bound)
      else Grown(s, p, now, bound)
  }

  function Applied(store: Store, p: Publication, now: Ticks, a: Admission): Store
    requires p.value.Metric?
  {
    Store(store.series[p.Slot() := NextSeries(store, p, now, a.maxSamples)],
          if Reborn(store, p) then Advanced(store.watermark) else store.watermark)
  }

  datatype FoldResult = Accepted(store: Store) | Refused(outcome: Outcome)

  // Publish the samples one after the other, each checked against everything
  // before it; the first refusal refuses them all.
  function Fold(store: Store, batch: seq<Publication>, nows: seq<Ticks>, a: Admission): FoldResult
    requires |nows| == |batch|
    decreases |batch|
  {
    if batch == [] then Accepted(store)
    else
      match Refusal(store, batch[0], a)
      case Some(outcome) => Refused(outcome)
      case None => Fold(Applied(store, batch[0], nows[0], a), batch[1..], nows[1..], a)
  }

  // ------------------------------------------------------------------------
  // The two passes
  // ------------------------------------------------------------------------

  // What pass one remembers of each series the batch has touched so far.
  datatype Track = Track(generation: u64, last: u64, quality: Quality)
  type Tracker = map<Key, Track>

  function TrackedSources(t: Tracker): set<Id> { set k | k in t :: k.source }

  function Tracked(t: Tracker, p: Publication): Tracker
    requires p.value.Metric?
  {
    t[p.Slot() := Track(p.generation, p.sequence, p.quality)]
  }

  function TrackedRefusal(store: Store, t: Tracker, p: Publication, a: Admission): Option<Outcome>
  {
    if !p.WellFormed() then Some(MALFORMED_REQUEST)
    else if p.path !in a.authorized then Some(UNAUTHORIZED_SCOPE)
    else
      var k := p.Slot();
      var stored := if k in store.series then store.series[k].generation else 0;
      var batched := if k in t then t[k].generation else 0;
      var effective := Max(stored, batched);
      if effective != 0 && p.generation < effective then Some(STALE_EVIDENCE)
      else
        var reborn := effective != 0 && p.generation > effective;
        var quality := if k in store.series && p.generation == stored then store.series[k].quality
                       else if k in t then t[k].quality
                       else p.quality;
        if !reborn && effective != 0 && quality != p.quality then Some(MALFORMED_REQUEST)
        else
          var last := if reborn then 0
                      else if k in t then t[k].last
                      else if k in store.series then LastSequence(store.series[k])
                      else 0;
          if last != 0 && p.sequence <= last then Some(STALE_EVIDENCE)
          else if k !in store.series && k !in t
                  && p.source !in Sources(store) + TrackedSources(t)
                  && |Sources(store) + TrackedSources(t)| >= a.maxSources
          then Some(RESOURCE_LIMIT)
          else None
  }

  function Validate(store: Store, t: Tracker, batch: seq<Publication>, a: Admission): Option<Outcome>
    decreases |batch|
  {
    if batch == [] then None
    else
      match TrackedRefusal(store, t, batch[0], a)
      case Some(outcome) => Some(outcome)
      case None => Validate(store, Tracked(t, batch[0]), batch[1..], a)
  }

  function ApplyAll(store: Store, batch: seq<Publication>, nows: seq<Ticks>, a: Admission): Store
    requires |nows| == |batch| && forall i :: 0 <= i < |batch| ==> batch[i].value.Metric?
    decreases |batch|
  {
    if batch == [] then store
    else ApplyAll(Applied(store, batch[0], nows[0], a), batch[1..], nows[1..], a)
  }

  lemma {:induction false} ValidatedIsWellFormed(store: Store, t: Tracker, batch: seq<Publication>, a: Admission)
    requires Validate(store, t, batch, a).None?
    ensures forall i :: 0 <= i < |batch| ==> batch[i].WellFormed() && batch[i].path in a.authorized
    decreases |batch|
  {
    if batch != [] {
      ValidatedIsWellFormed(store, Tracked(t, batch[0]), batch[1..], a);
    }
  }

  // ------------------------------------------------------------------------
  // The two passes refine the fold
  // ------------------------------------------------------------------------

  ghost predicate StoreValid(store: Store)
  {
    forall k :: k in store.series ==> store.series[k].generation != 0
  }

  // One entry of the tracker against the series before and after the batch.
  ghost predicate Follows(before: Store, k: Key, t: Track, now: Series)
  {
    && now.generation == t.generation != 0
    && now.quality == t.quality
    && LastSequence(now) == t.last
    && (k in before.series ==> before.series[k].generation <= t.generation)
    && (k in before.series && before.series[k].generation == t.generation ==> before.series[k].quality == t.quality)
  }

  // The tracker describes how the store grew from `before` to `now`.
  ghost predicate Describes(before: Store, t: Tracker, now: Store)
  {
    && StoreValid(before)
    && now.series.Keys == before.series.Keys + t.Keys
    && (forall k :: k in t ==> Follows(before, k, t[k], now.series[k]))
    && (forall k :: k in before.series && k !in t ==> now.series[k] == before.series[k])
  }

  lemma SourcesGrow(before: Store, t: Tracker, now: Store)
    requires now.series.Keys == before.series.Keys + t.Keys
    ensures Sources(now) == Sources(before) + TrackedSources(t)
  {
    assert forall k :: k in now.series <==> k in before.series || k in t;
  }

  // What the tracker and the old store together say about one series.
  lemma SlotFacts(before: Store, t: Tracker, now: Store, k: Key)
    requires Describes(before, t, now)
    ensures k in now.series <==> k in before.series || k in t
    ensures k in now.series ==>
      now.series[k].generation == Max(if k in before.series then before.series[k].generation else 0,
                                      if k in t then t[k].generation else 0) != 0
    ensures k in t ==> LastSequence(now.series[k]) == t[k].last && now.series[k].quality == t[k].quality
    ensures k !in t && k in before.series ==> now.series[k] == before.series[k]
    ensures k in t && k in before.series && before.series[k].generation == now.series[k].generation ==>
      before.series[k].quality == t[k].quality
  {
    hide LastSequence;
    if k in t {
      assert Follows(before, k, t[k], now.series[k]);
    }
  }

  lemma SameRefusal(before: Store, t: Tracker, now: Store, p: Publication, a: Admission)
    requires Describes(before, t, now)
    ensures TrackedRefusal(before, t, p, a) == Refusal(now, p, a)
  {
    hide Describes, LastSequence, Sources, TrackedSources;
    SameSources(before, t, now);
    if p.value.Metric? {
      SlotFacts(before, t, now, p.Slot());
    }
  }

  lemma SameSources(before: Store, t: Tracker, now: Store)
    requires Describes(before, t, now)
    ensures Sources(now) == Sources(before) + TrackedSources(t)
  {
    SourcesGrow(before, t, now);
  }

  lemma NextSeriesFollows(store: Store, p: Publication, now: Ticks, a: Admission)
    requires StoreValid(store) && Refusal(store, p, a).None? && a.maxSamples >= 1
    ensures var s := NextSeries(store, p, now, a.maxSamples);
            s.generation == p.generation && s.quality == p.quality && LastSequence(s) == p.sequence
  {
  }

  lemma StepFollows(before: Store, t: Tracker, now: Store, p: Publication, at: Ticks, a: Admission)
    requires Describes(before, t, now) && StoreValid(now) && Refusal(now, p, a).None? && a.maxSamples >= 1
    ensures Follows(before, p.Slot(), Track(p.generation, p.sequence, p.quality), NextSeries(now, p, at, a.maxSamples))
  {
    NextSeriesFollows(now, p, at, a);
    if p.Slot() in t {
      assert Follows(before, p.Slot(), t[p.Slot()], now.series[p.Slot()]);
    }
  }

  lemma StepDescribes(before: Store, t: Tracker, now: Store, p: Publication, at: Ticks, a: Admission)
    requires Describes(before, t, now) && StoreValid(now) && Refusal(now, p, a).None? && a.maxSamples >= 1
    ensures Describes(before, Tracked(t, p), Applied(now, p, at, a)) && StoreValid(Applied(now, p, at, a))
  {
    StepFollows(before, t, now, p, at, a);
    var k, s, entry := p.Slot(), NextSeries(now, p, at, a.maxSamples), Track(p.generation, p.sequence, p.quality);
    assert Tracked(t, p) == t[k := entry];
    UpdateDescribes(before, t, now, k, entry, s, Applied(now, p, at, a).watermark);
  }

  lemma UpdateDescribes(before: Store, t: Tracker, now: Store, k: Key, entry: Track, s: Series, watermark: u64)
    requires Describes(before, t, now) && StoreValid(now) && Follows(before, k, entry, s)
    ensures Describes(before, t[k := entry], Store(now.series[k := s], watermark))
    ensures StoreValid(Store(now.series[k := s], watermark))
  {
  }

  // With at least one retained sample per series, validating the whole batch
  // first and applying it afterwards accepts exactly the batches that sequential
  // checked publication accepts, with the same refusal, and leaves the same
  // series and watermark.
  lemma {:induction false} TwoPassesRefineFold(
    before: Store, t: Tracker, now: Store, batch: seq<Publication>, nows: seq<Ticks>, a: Admission)
    requires Describes(before, t, now) && StoreValid(now) && a.maxSamples >= 1 && |nows| == |batch|
    ensures match Validate(before, t, batch, a)
            case Some(outcome) => Fold(now, batch, nows, a) == Refused(outcome)
            case None =>
              && (forall i :: 0 <= i < |batch| ==> batch[i].WellFormed())
              && Fold(now, batch, nows, a) == Accepted(ApplyAll(now, batch, nows, a))
    decreases |batch|
  {
    if batch != [] {
      SameRefusal(before, t, now, batch[0], a);
      if Refusal(now, batch[0], a).None? {
        StepDescribes(before, t, now, batch[0], nows[0], a);
        TwoPassesRefineFold(before, Tracked(t, batch[0]), Applied(now, batch[0], nows[0], a),
                            batch[1..], nows[1..], a);
        if Validate(before, t, batch, a).None? {
          ValidatedIsWellFormed(before, t, batch, a);
        }
      }
    }
  }

  // The refinement of a whole batch, from an empty tracker.
  lemma BatchRefinesFold(store: Store, batch: seq<Publication>, nows: seq<Ticks>, a: Admission)
    requires StoreValid(store) && a.maxSamples >= 1 && |nows| == |batch|
    ensures match Validate(store, map[], batch, a)
            case Some(outcome) => Fold(store, batch, nows, a) == Refused(outcome)
            case None =>
              && (forall i :: 0 <= i < |batch| ==> batch[i].WellFormed())
              && Fold(store, batch, nows, a) == Accepted(ApplyAll(store, batch, nows, a))
  {
    TwoPassesRefineFold(store, map[], store, batch, nows, a);
  }

  // A configuration that retains no sample breaks the equivalence: the batch
  // refuses a repeated observation that sequential publication accepts.
  lemma NoRetentionBreaksTheFold(a: Admission, p: Publication, now: Ticks)
    requires a.maxSamples == 0 && a.maxSources > 0
    requires p.WellFormed() && p.path in a.authorized && p.sequence != 0
    ensures var empty := Store(map[], 0);
            && Validate(empty, map[], [p, p], a) == Some(STALE_EVIDENCE)
            && Fold(empty, [p, p], [now, now], a).Accepted?
  {
    var empty := Store(map[], 0);
    var one := Applied(empty, p, now, a);
    assert Sources(empty) == {};
    assert Sources(empty) + TrackedSources(map[]) == {};
    assert one.series.Keys == {p.Slot()};
    assert [p, p][1..] == [p] && [now, now][1..] == [now] && [p][1..] == [] && [now][1..] == [];
    assert Refusal(empty, p, a).None?;
    assert LastSequence(one.series[p.Slot()]) == 0;
    assert Refusal(one, p, a).None?;
    assert Fold(one, [p], [now], a).Accepted?;
  }

  // Pass one as the source runs it: a loop that carries the tracker and stops
  // at the first refusal, before anything has been applied.
  method ValidateBatch(store: Store, batch: seq<Publication>, a: Admission) returns (refusal: Option<Outcome>)
    ensures refusal == Validate(store, map[], batch, a)
  {
    var t: Tracker := map[];
    for i := 0 to |batch|
      invariant Validate(store, map[], batch, a) == Validate(store, t, batch[i..], a)
    {
      refusal := TrackedRefusal(store, t, batch[i], a);
      assert batch[i..][1..] == batch[i + 1..];
      if refusal.Some? {
        return;
      }
      t := Tracked(t, batch[i]);
    }
    return None;
  }

  // ------------------------------------------------------------------------
  // Retained samples
  // ------------------------------------------------------------------------

  // On every store built by accepted publications the samples of a series are
  // in observation order, of the series' kind, at most maxSamples of them, and
  // accepted no later than the clock.
  ghost predicate SamplesOrdered(kind: MetricKind, samples: seq<Sample>, now: Ticks)
  {
    && (forall i :: 0 <= i < |samples| ==>
          samples[i].value.Metric? && samples[i].value.kind == kind && samples[i].acceptedAt <= now)
    && (forall i, j :: 0 <= i < j < |samples| ==>
          samples[i].sequence <= samples[j].sequence && samples[i].acceptedAt <= samples[j].acceptedAt)
  }

  ghost predicate SeriesOrdered(k: Key, s: Series, now: Ticks, bound: nat)
  {
    s.generation != 0 && |s.samples| <= bound && SamplesOrdered(k.kind, s.samples, now)
  }

  ghost predicate StoreOrdered(store: Store, now: Ticks, maxSamples: nat)
  {
    forall k :: k in store.series ==> SeriesOrdered(k, store.series[k], now, maxSamples)
  }

  lemma AppendKeepsOrder(kind: MetricKind, s: seq<Sample>, x: Sample, before: Ticks, now: Ticks)
    requires SamplesOrdered(kind, s, before) && before <= now
    requires x.value.Metric? && x.value.kind == kind && x.acceptedAt == now
    requires s == [] || s[|s| - 1].sequence <= x.sequence
    ensures SamplesOrdered(kind, s + [x], now)
  {
  }

  lemma TrimKeepsOrder(kind: MetricKind, s: seq<Sample>, now: Ticks, bound: nat)
    requires SamplesOrdered(kind, s, now)
    ensures SamplesOrdered(kind, Trimmed(s, bound), now) && |Trimmed(s, bound)| <= bound
  {
  }

  lemma GrownKeepsOrder(k: Key, s: Series, p: Publication, before: Ticks, now: Ticks, bound: nat)
    requires SeriesOrdered(k, s, before, bound) && before <= now
    requires p.value.Metric? && p.value.kind == k.kind && LastSequence(s) <= p.sequence
    ensures SeriesOrdered(k, Grown(s, p, now, bound), now, bound)
  {
    var x := Sample(p.value, now, p.sequence);
    AppendKeepsOrder(k.kind, s.samples, x, before, now);
    TrimKeepsOrder(k.kind, s.samples + [x], now, bound);
  }

  lemma AppliedKeepsOrder(store: Store, p: Publication, before: Ticks, now: Ticks, a: Admission)
    requires StoreOrdered(store, before, a.maxSamples) && before <= now && Refusal(store, p, a).None?
    ensures StoreOrdered(Applied(store, p, now, a), now, a.maxSamples)
  {
    var k, bound := p.Slot(), a.maxSamples;
    var after := Applied(store, p, now, a);
    if k in store.series {
      assert SeriesOrdered(k, store.series[k], before, bound);
      if !Reborn(store, p) {
        GrownKeepsOrder(k, store.series[k], p, before, now, bound);
      }
    }
    GrownKeepsOrder(k, Series(p.generation, p.quality, [], 0), p, before, now, bound);
    if Reborn(store, p) {
      GrownKeepsOrder(k, store.series[k].(samples := [], generation := p.generation, quality := p.quality), p, before,
                      now, bound);
    }
    assert SeriesOrdered(k, after.series[k], now, bound);
    forall j | j in after.series
      ensures SeriesOrdered(j, after.series[j], now, bound)
    {
      if j != k {
        assert after.series[j] == store.series[j];
        assert SeriesOrdered(j, store.series[j], before, bound);
      }
    }
  }

  // ------------------------------------------------------------------------
  // Choosing and aggregating a series
  // ------------------------------------------------------------------------

  predicate Usable(store: Store, path: Id, r: Requirement, k: Key)
  {
    && k in store.series && k.path == path && k.kind == r.kind
    && store.series[k].quality.Rank() >= r.minQuality.Rank()
    && store.series[k].samples != []
  }

  // Strongest quality first, then the smallest source identity.
  predicate Preferred(store: Store, a: Key, b: Key)
    requires a in store.series && b in store.series
  {
    var ra, rb := store.series[a].quality.Rank(), store.series[b].quality.Rank();
    ra > rb || (ra == rb && Less(a.source, b.source))
  }

  ghost predicate IsChosen(store: Store, path: Id, r: Requirement, k: Key)
  {
    && Usable(store, path, r, k)
    && forall j :: Usable(store, path, r, j) && j != k ==> Preferred(store, k, j)
  }

  lemma ChosenUnique(store: Store, path: Id, r: Requirement, a: Key, b: Key)
    requires IsChosen(store, path, r, a) && IsChosen(store, path, r, b)
    ensures a == b
  {
    if a != b {
      LessAsymmetric(a.source, b.source);
    }
  }

  ghost function Chosen(store: Store, path: Id, r: Requirement): Option<Key>
  {
    if exists k :: IsChosen(store, path, r, k) then
      var k :| IsChosen(store, path, r, k); Some(k)
    else None
  }

  // What a requirement resolves to for one path.
  datatype Resolved = Resolved(
    value: MetricValue, count: nat, oldest: Ticks, newest: Ticks, quality: Quality, source: Id, generation: u64)

  function SampleValues(samples: seq<Sample>): seq<i64>
  {
    seq(|samples|, i requires 0 <= i < |samples| =>
      if samples[i].value.Metric? then samples[i].value.value else 0)
  }

  // Stable sort by observation sequence.
  function InsertSample(x: Sample, s: seq<Sample>): (r: seq<Sample>)
    ensures |r| == |s| + 1
  {
    if s == [] || s[|s| - 1].sequence <= x.sequence then s + [x]
    else InsertSample(x, s[..|s| - 1]) + [s[|s| - 1]]
  }

  function InObservationOrder(s: seq<Sample>): (r: seq<Sample>)
    ensures |r| == |s|
  {
    if s == [] then [] else InsertSample(s[|s| - 1], InObservationOrder(s[..|s| - 1]))
  }

  lemma LastInsertAppends(x: Sample, s: seq<Sample>)
    requires s == [] || s[|s| - 1].sequence <= x.sequence
    ensures InsertSample(x, s) == s + [x]
  {
  }

  // Retained samples already are in observation order, so the sort that makes
  // the aggregates independent of arrival order changes nothing.
  lemma {:induction false} OrderedSamplesStay(s: seq<Sample>)
    requires forall i, j :: 0 <= i < j < |s| ==> s[i].sequence <= s[j].sequence
    ensures InObservationOrder(s) == s
  {
    if s != [] {
      OrderedSamplesStay(s[..|s| - 1]);
      LastInsertAppends(s[|s| - 1], s[..|s| - 1]);
      assert s[..|s| - 1] + [s[|s| - 1]] == s;
    }
  }

  function Summarize(k: Key, s: Series, r: Requirement): Option<Resolved>
    requires s.samples != []
  {
    var ordered := InObservationOrder(s.samples);
    match Aggregate(r.aggregation, SampleValues(ordered), r.alpha)
    case None => None
    case Some(aggregated) =>
      match MakeMetric(r.kind, aggregated)
      case None => None
      case Some(value) =>
        Some(Resolved(value, |ordered|, ordered[0].acceptedAt, ordered[|ordered| - 1].acceptedAt,
                      s.quality, k.source, s.generation))
  }

  ghost function AggregateFor(store: Store, path: Id, r: Requirement): Option<Resolved>
  {
    match Chosen(store, path, r)
    case None => None
    case Some(k) => Summarize(k, store.series[k], r)
  }

  // The scan of the source, in any order of the series map: it finds the same
  // series, so the iteration order never matters.
  method ComputeAggregate(store: Store, path: Id, r: Requirement) returns (result: Option<Resolved>)
    ensures result == AggregateFor(store, path, r)
  {
    var chosen: Option<Key> := None;
    var rest := store.series.Keys;
    while rest != {}
      invariant rest <= store.series.Keys
      invariant chosen.Some? ==> Usable(store, path, r, chosen.value)
      invariant forall j :: Usable(store, path, r, j) && j !in rest ==>
                  chosen.Some? && (j == chosen.value || Preferred(store, chosen.value, j))
      decreases rest
    {
      var k :| k in rest;
      rest := rest - {k};
      if Usable(store, path, r, k) {
        if chosen.None? {
          chosen := Some(k);
        } else {
          ChoiceIsTotal(store, path, r, chosen.value, k);
          if Preferred(store, k, chosen.value) {
            ghost var previous := chosen.value;
            chosen := Some(k);
            forall j | Usable(store, path, r, j) && j !in rest && j != k
              ensures Preferred(store, k, j)
            {
              if j != previous {
                PreferredTransitive(store, k, previous, j);
              }
            }
          }
        }
      }
    }
    if chosen.None? {
      return None;
    }
    assert IsChosen(store, path, r, chosen.value);
    ChosenUnique(store, path, r, chosen.value, Chosen(store, path, r).value);
    result := Summarize(chosen.value, store.series[chosen.value], r);
  }

  lemma PreferredTransitive(store: Store, a: Key, b: Key, c: Key)
    requires a in store.series && b in store.series && c in store.series
    requires Preferred(store, a, b) && Preferred(store, b, c)
    ensures Preferred(store, a, c)
  {
    if Less(a.source, b.source) && Less(b.source, c.source) {
      LessTransitive(a.source, b.source, c.source);
    }
  }

  lemma ChoiceIsTotal(store: Store, path: Id, r: Requirement, a: Key, b: Key)
    requires Usable(store, path, r, a) && Usable(store, path, r, b)
    ensures a == b || Preferred(store, a, b) || Preferred(store, b, a)
  {
    LessTotal(a.source, b.source);
  }

  // A resolved value is evidence: some accepted series of that path and kind
  // holds samples, the value lies between the smallest and the largest of them,
  // and its quality meets the requirement.
  lemma ResolvedIsEvidence(store: Store, path: Id, r: Requirement, now: Ticks, maxSamples: nat)
    requires StoreOrdered(store, now, maxSamples) && maxSamples <= 1_000_000 && r.Valid()
    requires Chosen(store, path, r).Some?
    ensures AggregateFor(store, path, r).Some?
    ensures Usable(store, path, r, Chosen(store, path, r).value)
    ensures Reflects(AggregateFor(store, path, r).value, store.series[Chosen(store, path, r).value], r, now)
  {
    var k := Chosen(store, path, r).value;
    assert SeriesOrdered(k, store.series[k], now, maxSamples);
    SummaryReflects(k, store.series[k], r, now);
  }

  // A resolved value reflects the retained samples of the series it came from.
  ghost predicate Reflects(v: Resolved, s: Series, r: Requirement, now: Ticks)
    requires s.samples != []
  {
    && v.value.Metric? && v.value.kind == r.kind && v.count == |s.samples|
    && (forall i :: 0 <= i < |s.samples| ==> SampleValues(s.samples)[i] == s.samples[i].value.Amount())
    && MinOf(SampleValues(s.samples)) <= v.value.value <= MaxOf(SampleValues(s.samples))
    && IsAggregate(r.aggregation, SampleValues(s.samples), r.alpha, v.value.value)
    && v.oldest == s.samples[0].acceptedAt <= v.newest == s.samples[|s.samples| - 1].acceptedAt <= now
    && v.quality == s.quality && v.generation == s.generation
  }

  lemma SummaryReflects(k: Key, s: Series, r: Requirement, now: Ticks)
    requires r.Valid() && k.kind == r.kind && s.samples != [] && |s.samples| <= 1_000_000
    requires SamplesOrdered(k.kind, s.samples, now)
    ensures Summarize(k, s, r).Some? && Reflects(Summarize(k, s, r).value, s, r, now)
  {
    hide Aggregate, IsAggregate, InObservationOrder, MinOf, MaxOf;
    OrderedSamplesStay(s.samples);
    AggregateInRange(s.samples, r, now);
  }

  lemma AggregateInRange(samples: seq<Sample>, r: Requirement, now: Ticks)
    requires r.Valid() && samples != [] && |samples| <= 1_000_000 && SamplesOrdered(r.kind, samples, now)
    ensures var values := SampleValues(samples);
            && Aggregate(r.aggregation, values, r.alpha).Some?
            && MinOf(values) <= Aggregate(r.aggregation, values, r.alpha).value <= MaxOf(values)
            && IsAggregate(r.aggregation, values, r.alpha, Aggregate(r.aggregation, values, r.alpha).value)
            && 0 <= MinOf(values) && MaxOf(values) <= r.kind.Maximum()
  {
    hide Aggregate, IsAggregate, MinOf, MaxOf;
    var values := SampleValues(samples);
    ExtremesBound(values);
    assert forall i :: 0 <= i < |values| ==> 0 <= values[i] <= r.kind.Maximum();
    AggregateIsClosed(r.aggregation, values, r.alpha, MinOf(values), MaxOf(values));
    AggregateIsExact(r.aggregation, values, r.alpha);
  }
}
