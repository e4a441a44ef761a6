// Evidence batches against the whole state, and the evidence store along runs.

module Batches {
  import opened Base
  import opened Metrics
  import opened Aggregation
  import opened Evidence
  import opened Outcomes
  import opened Policy
  import opened Records
  import opened Durable
  import opened Fabric
  import opened Runs
  import opened Fencing

  // Everything a batch is checked for before its samples are looked at.
  ghost predicate MayPublish(s: State, batch: seq<Timed>, ctx: Context, fingerprint: Id, limits: Limits)
  {
    && batch != [] && |batch| <= limits.maxBatch && CallerRefusal(s, ctx, None, None).None?
    && Replay(s, ctx.attempt, fingerprint).None? && ctx.publisher in s.registrations
  }

  // Publishing the samples one by one, each checked against those before it.
  ghost function OneByOne(s: State, batch: seq<Timed>, ctx: Context, limits: Limits): FoldResult
    requires ctx.publisher in s.registrations
  {
    Fold(s.evidence, Samples(batch), Readings(batch), AdmissionOf(s, ctx.publisher, limits))
  }

  // A batch is all or nothing exactly when the evidence generation is not
  // exhausted: it is accepted when publishing one by one accepts every sample,
  // then leaves the same series and watermark and one generation step; otherwise
  // it reports the first refusal and leaves the state as it was. With an
  // exhausted generation an acceptable batch is refused, and yet stored.
  lemma BatchIsAtomic(s: State, batch: seq<Timed>, ctx: Context, fingerprint: Id, limits: Limits)
    requires MayPublish(s, batch, ctx, fingerprint, limits) && StoreValid(s.evidence) && limits.maxSamples >= 1
    ensures var t := PublishStep(s, batch, ctx, fingerprint, limits);
            match OneByOne(s, batch, ctx, limits)
            case Refused(outcome) => t == Step(s, outcome)
            case Accepted(store) =>
              && t.state.evidence == store && store != s.evidence
              && (if s.evidenceGeneration == U64_MAX
                  then t == Step(s.(evidence := store), GENERATION_OVERFLOW)
                  else t.outcome == POLICY_UPDATED && t.state.evidenceGeneration == s.evidenceGeneration + 1)
  {
    hide CallerRefusal, Replay, Validate, Fold, ApplyAll, Logged, IndexSources;
    var a := AdmissionOf(s, ctx.publisher, limits);
    BatchRefinesFold(s.evidence, Samples(batch), Readings(batch), a);
    if Validate(s.evidence, map[], Samples(batch), a).None? {
      ApplyAllChanges(s.evidence, Samples(batch), Readings(batch), a);
    }
  }

  // Published samples leave a trace: the publication counters of the touched
  // series add up to more than before.
  lemma {:induction false} ApplyAllCounts(store: Store, batch: seq<Publication>, nows: seq<Ticks>, a: Admission, k: Key)
    requires |nows| == |batch| && forall i :: 0 <= i < |batch| ==> batch[i].value.Metric?
    ensures var after := ApplyAll(store, batch, nows, a);
            && (k in after.series <==> k in store.series || Hits(batch, k) > 0)
            && (k in after.series ==> after.series[k].published == (CountOf(store, k) + Hits(batch, k)) % TWO_64)
    decreases |batch|
  {
    if batch != [] {
      var next := Applied(store, batch[0], nows[0], a);
      ApplyAllCounts(next, batch[1..], nows[1..], a, k);
      WrapTwice(CountOf(store, k), if batch[0].Slot() == k then 1 else 0, Hits(batch[1..], k));
    }
  }

  function CountOf(store: Store, k: Key): u64 { if k in store.series then store.series[k].published else 0 }

  function Hits(batch: seq<Publication>, k: Key): nat
    requires forall i :: 0 <= i < |batch| ==> batch[i].value.Metric?
  {
    if batch == [] then 0 else (if batch[0].Slot() == k then 1 else 0) + Hits(batch[1..], k)
  }

  lemma {:induction false} HitsBound(batch: seq<Publication>, k: Key)
    requires forall i :: 0 <= i < |batch| ==> batch[i].value.Metric?
    ensures Hits(batch, k) <= |batch|
  {
    if batch != [] {
      HitsBound(batch[1..], k);
    }
  }

  lemma ApplyAllChanges(store: Store, batch: seq<Publication>, nows: seq<Ticks>, a: Admission)
    requires |nows| == |batch| && 0 < |batch| < TWO_64 && forall i :: 0 <= i < |batch| ==> batch[i].value.Metric?
    ensures ApplyAll(store, batch, nows, a) != store
  {
    var k := batch[0].Slot();
    ApplyAllCounts(store, batch, nows, a, k);
    HitsBound(batch, k);
    CounterMoves(CountOf(store, k), Hits(batch, k));
  }

  lemma CounterMoves(x: u64, n: nat)
    ensures 0 < n < TWO_64 ==> (x + n) % TWO_64 != x
  {
    if (x + n) % TWO_64 == x {
      SameModulo(x, n);
    }
  }

  // ------------------------------------------------------------------------
  // The store along runs
  // ------------------------------------------------------------------------

  lemma {:induction false} FoldKeepsOrder(
    store: Store, batch: seq<Publication>, nows: seq<Ticks>, a: Admission, from: Ticks, to: Ticks)
    requires |nows| == |batch| && Fold(store, batch, nows, a).Accepted? && StoreOrdered(store, from, a.maxSamples)
    requires from <= to && (forall i :: 0 <= i < |nows| ==> from <= nows[i] <= to)
    requires forall i, j :: 0 <= i < j < |nows| ==> nows[i] <= nows[j]
    ensures StoreOrdered(Fold(store, batch, nows, a).store, to, a.maxSamples)
    decreases |batch|
  {
    hide OrderRefusal, Applied, SeriesOrdered;
    if batch == [] {
      OrderedLater(store, from, to, a.maxSamples);
    } else {
      AppliedKeepsOrder(store, batch[0], from, nows[0], a);
      FoldKeepsOrder(Applied(store, batch[0], nows[0], a), batch[1..], nows[1..], a, nows[0], to);
    }
  }

  lemma OrderedLater(store: Store, from: Ticks, to: Ticks, bound: nat)
    requires StoreOrdered(store, from, bound) && from <= to
    ensures StoreOrdered(store, to, bound)
  {
    forall k | k in store.series
      ensures SeriesOrdered(k, store.series[k], to, bound)
    {
      assert SeriesOrdered(k, store.series[k], from, bound);
    }
  }

  lemma OrderedIsValid(store: Store, now: Ticks, bound: nat)
    ensures StoreOrdered(store, now, bound) ==> StoreValid(store)
  {
    hide SamplesOrdered;
    if StoreOrdered(store, now, bound) {
      forall k | k in store.series
        ensures store.series[k].generation != 0
      {
        assert SeriesOrdered(k, store.series[k], now, bound);
      }
    }
  }

  lemma PublishKeepsOrder(
    s: State, batch: seq<Timed>, ctx: Context, fingerprint: Id, limits: Limits, from: Ticks, to: Ticks)
    requires StoreOrdered(s.evidence, from, limits.maxSamples) && limits.maxSamples >= 1
    requires from <= to && ReadingsTimely(batch, from, to)
    ensures StoreOrdered(PublishStep(s, batch, ctx, fingerprint, limits).state.evidence, to, limits.maxSamples)
  {
    hide CallerRefusal, Replay, Validate, Fold, ApplyAll, Logged, IndexSources, StoreOrdered;
    OrderedLater(s.evidence, from, to, limits.maxSamples);
    if PublishRefusal(s, batch, ctx, fingerprint, limits).None? {
      var a := AdmissionOf(s, ctx.publisher, limits);
      OrderedIsValid(s.evidence, from, limits.maxSamples);
      BatchRefinesFold(s.evidence, Samples(batch), Readings(batch), a);
      FoldKeepsOrder(s.evidence, Samples(batch), Readings(batch), a, from, to);
    }
  }

  lemma StepKeepsOrder(s: State, e: Event, from: Ticks, limits: Limits)
    requires StoreOrdered(s.evidence, from, limits.maxSamples) && limits.maxSamples >= 1 && Timely(from, e)
    requires e.op.Restart? ==> Restarts(s, e, limits) || from <= e.now
    ensures StoreOrdered(After(s, e, limits).evidence, e.now, limits.maxSamples)
  {
    hide RegisterStep, FenceStep, CreateStep, UpdateStep, TransitionStep, RevokeStep, UpstreamStep, PublishStep,
         CommitStep, RollbackStep, Recovered, BuildDurable, RecoveryRefusal, SeriesOrdered;
    if e.op.Publish? {
      PublishKeepsOrder(s, e.op.batch, e.op.context, e.op.fingerprint, limits, from, e.now);
    } else if Restarts(s, e, limits) {
      RecoveredFacts(Stripped(BuildDurable(s, e.op.saved)), e.now, limits);
    } else {
      StepCounters(s, e, limits);
      OrderedLater(s.evidence, from, e.now, limits.maxSamples);
    }
  }

  // The clock starts over only with a recovery that succeeds: a refused one on a
  // new clock is the one step after which stored samples may lie in the future.
  ghost predicate RestartsOnward(s: State, es: seq<Event>, from: Ticks, limits: Limits)
    decreases |es|
  {
    es != [] ==>
      && (es[0].op.Restart? ==> Restarts(s, es[0], limits) || from <= es[0].now)
      && RestartsOnward(After(s, es[0], limits), es[1..], es[0].now, limits)
  }

  ghost function ClockOf(from: Ticks, es: seq<Event>): Ticks { if es == [] then from else es[|es| - 1].now }

  // On every run the retained samples of each series are bounded, of its kind,
  // in observation order and accepted no later than the clock, so what every
  // requirement resolves to reflects exactly those samples.
  lemma {:induction false} EvidenceStaysOrdered(s: State, es: seq<Event>, from: Ticks, limits: Limits)
    requires StoreOrdered(s.evidence, from, limits.maxSamples) && limits.maxSamples >= 1 && Clocked(from, es)
    requires RestartsOnward(s, es, from, limits)
    ensures StoreOrdered(Exec(s, es, limits).evidence, ClockOf(from, es), limits.maxSamples)
    decreases |es|
  {
    hide After, StoreOrdered, Restarts;
    if es != [] {
      StepKeepsOrder(s, es[0], from, limits);
      EvidenceStaysOrdered(After(s, es[0], limits), es[1..], es[0].now, limits);
    }
  }

  lemma ResolvedReflectsSamples(s: State, es: seq<Event>, from: Ticks, limits: Limits, path: Id, r: Requirement)
    requires StoreOrdered(s.evidence, from, limits.maxSamples) && 1 <= limits.maxSamples <= 1_000_000
    requires Clocked(from, es) && RestartsOnward(s, es, from, limits) && r.Valid()
    ensures var store := Exec(s, es, limits).evidence;
            match Chosen(store, path, r)
            case None => AggregateFor(store, path, r).None?
            case Some(k) =>
              k in store.series && store.series[k].samples != [] && AggregateFor(store, path, r).Some?
              && Reflects(AggregateFor(store, path, r).value, store.series[k], r, ClockOf(from, es))
  {
    hide After, Exec, StoreOrdered, Reflects, Summarize;
    EvidenceStaysOrdered(s, es, from, limits);
    var store := Exec(s, es, limits).evidence;
    if Chosen(store, path, r).Some? {
      ResolvedIsEvidence(store, path, r, ClockOf(from, es), limits.maxSamples);
    }
  }
}
