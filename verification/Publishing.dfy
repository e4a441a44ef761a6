// Which samples are accepted, from whom and for which paths, and what one sample
// leaves, told from the records alone (src/fabric_evidence.cpp).

module Publishing {
  import opened Base
  import opened Metrics
  import opened Evidence
  import opened Outcomes
  import opened Policy
  import opened Records
  import opened Indexing
  import opened Fabric
  import opened Batches
  import Absorbing
  import Callers
  import Commitment

  // ------------------------------------------------------------------------
  // Scope
  // ------------------------------------------------------------------------

  // Some policy that the index lists under the path has the fabric and namespace
  // of the scope and a route inside it.
  ghost predicate Covered(s: State, scope: AuthorityScope, path: Id)
  {
    path in s.index.byPath
    && exists id :: id in s.index.byPath[path] && id in s.policies && Lies(s.policies[id].policy, scope)
  }

  ghost predicate Lies(p: AdaptivePolicy, scope: AuthorityScope)
  {
    && p.scope.fabric == scope.fabric && p.scope.namespace == scope.namespace
    && (scope.routes == [] || p.semantics.target.route in scope.routes)
  }

  lemma AuthorizedIsCovered(s: State, publisher: Id, limits: Limits, path: Id)
    requires publisher in s.registrations
    ensures path in AdmissionOf(s, publisher, limits).authorized <==>
              Covered(s, s.registrations[publisher].scope, path)
  {
    var scope := s.registrations[publisher].scope;
    if Covered(s, scope, path) {
      var id :| id in s.index.byPath[path] && id in s.policies && Lies(s.policies[id].policy, scope);
      assert id in Get(s.index.byPath, path);
    }
  }

  // The batch went in: it was answered so, or something changed.
  ghost predicate Stored(s: State, t: Step) { t.outcome == POLICY_UPDATED || t.state != s }

  // Every sample of a batch that went in lies inside the registered scope of its
  // live publisher.
  lemma PublishedIsCovered(s: State, batch: seq<Timed>, ctx: Context, fingerprint: Id, limits: Limits)
    requires Stored(s, PublishStep(s, batch, ctx, fingerprint, limits))
    ensures Callers.Live(s, ctx) && Commitment.Unused(s, ctx.attempt) && 0 < |batch| <= limits.maxBatch
    ensures forall k :: 0 <= k < |batch| ==>
              batch[k].sample.WellFormed()
              && Covered(s, s.registrations[ctx.publisher].scope, batch[k].sample.path)
  {
    hide CallerRefusal, Replay, ApplyAll, IndexSources, Recorded, AdmissionOf, Covered, Validate, Callers.Live,
         Commitment.Unused;
    Callers.CallerIsExact(s, ctx, Target(NO_ID, None));
    Commitment.UnusedIsExact(s, ctx.attempt, fingerprint);
    PublishNeeds(s, batch, ctx, fingerprint, limits);
    assert ctx.publisher in s.registrations by { LiveIsRegistered(s, ctx); }
    var a := AdmissionOf(s, ctx.publisher, limits);
    ValidatedIsWellFormed(s.evidence, map[], Samples(batch), a);
    forall k | 0 <= k < |batch|
      ensures batch[k].sample.WellFormed() && Covered(s, s.registrations[ctx.publisher].scope, batch[k].sample.path)
    {
      assert Samples(batch)[k] == batch[k].sample;
      AuthorizedIsCovered(s, ctx.publisher, limits, batch[k].sample.path);
    }
  }

  lemma LiveIsRegistered(s: State, ctx: Context)
    ensures Callers.Live(s, ctx) ==> ctx.publisher in s.registrations
  {
  }

  lemma PublishNeeds(s: State, batch: seq<Timed>, ctx: Context, fingerprint: Id, limits: Limits)
    requires Stored(s, PublishStep(s, batch, ctx, fingerprint, limits))
    ensures MayPublish(s, batch, ctx, fingerprint, limits)
    ensures Validate(s.evidence, map[], Samples(batch), AdmissionOf(s, ctx.publisher, limits)).None?
  {
    hide CallerRefusal, Replay, ApplyAll, IndexSources, Recorded, AdmissionOf, TrackedRefusal;
    Absorbing.RefusalIsNoUpdate(s, ctx, None, None);
    Commitment.UnusedIsExact(s, ctx.attempt, fingerprint);
    if MayPublish(s, batch, ctx, fingerprint, limits) {
      ValidateIsNoUpdate(s.evidence, map[], Samples(batch), AdmissionOf(s, ctx.publisher, limits));
    }
  }

  lemma {:induction false} ValidateIsNoUpdate(store: Store, t: Tracker, batch: seq<Publication>, a: Admission)
    ensures Validate(store, t, batch, a) != Some(POLICY_UPDATED)
    decreases |batch|
  {
    if batch != [] && TrackedRefusal(store, t, batch[0], a).None? {
      ValidateIsNoUpdate(store, Tracked(t, batch[0]), batch[1..], a);
    }
  }

  // Conversely, when nothing before refuses the batch, a well-formed first sample
  // outside the scope is what refuses it, and nothing is stored.
  lemma UncoveredIsRefused(s: State, batch: seq<Timed>, ctx: Context, fingerprint: Id, limits: Limits)
    requires MayPublish(s, batch, ctx, fingerprint, limits) && batch[0].sample.WellFormed()
    requires !Covered(s, s.registrations[ctx.publisher].scope, batch[0].sample.path)
    ensures PublishStep(s, batch, ctx, fingerprint, limits) == Step(s, UNAUTHORIZED_SCOPE)
  {
    hide CallerRefusal, Replay, ApplyAll, IndexSources, Recorded, AdmissionOf, Covered;
    AuthorizedIsCovered(s, ctx.publisher, limits, batch[0].sample.path);
    assert Samples(batch)[0] == batch[0].sample;
  }

  // A later one refuses it as well, at the latest when its turn comes.
  lemma UncoveredLaterIsRefused(
    s: State, batch: seq<Timed>, ctx: Context, fingerprint: Id, limits: Limits, k: nat)
    requires ctx.publisher in s.registrations && k < |batch| && batch[k].sample.WellFormed()
    requires !Covered(s, s.registrations[ctx.publisher].scope, batch[k].sample.path)
    ensures var t := PublishStep(s, batch, ctx, fingerprint, limits);
            t.state == s && t.outcome != POLICY_UPDATED
  {
    hide PublishStep, Covered;
    if Stored(s, PublishStep(s, batch, ctx, fingerprint, limits)) {
      PublishedIsCovered(s, batch, ctx, fingerprint, limits);
    }
  }

  // ------------------------------------------------------------------------
  // One sample
  // ------------------------------------------------------------------------

  // The sample continues its series: a later incarnation of the source, or the
  // same one with the same quality and a later observation.
  ghost predicate Continues(s: Series, p: Publication)
  {
    && p.generation >= s.generation
    && (p.generation == s.generation ==>
          p.quality == s.quality
          && (s.samples != [] && s.samples[|s.samples| - 1].sequence != 0 ==>
                s.samples[|s.samples| - 1].sequence < p.sequence))
  }

  lemma SampleIsExact(store: Store, p: Publication, a: Admission)
    requires StoreValid(store)
    ensures Refusal(store, p, a).None? <==>
      && p.WellFormed() && p.path in a.authorized
      && var k := Key(p.source, p.path, p.value.kind);
         if k in store.series then Continues(store.series[k], p)
         else (exists j :: j in store.series && j.source == p.source) || |Sources(store)| < a.maxSources
  {
    if p.source in Sources(store) {
      var j :| j in store.series && j.source == p.source;
    }
  }

  // An accepted sample is filed under its source, path and kind with its own
  // generation and quality; the samples before it stay unless they are of an
  // earlier incarnation; the watermark moves exactly for a new incarnation, and
  // no other series changes.
  lemma AppliedIsExact(store: Store, p: Publication, now: Ticks, a: Admission)
    requires Refusal(store, p, a).None? && StoreValid(store)
    ensures var k, after := Key(p.source, p.path, p.value.kind), Applied(store, p, now, a);
            var known := k in store.series;
            var same := known && store.series[k].generation == p.generation;
            && after.series.Keys == store.series.Keys + {k}
            && (forall j :: j in store.series && j != k ==> after.series[j] == store.series[j])
            && after.series[k].generation == p.generation && after.series[k].quality == p.quality
            && Appends(after.series[k].samples, if same then store.series[k].samples else [],
                       Sample(p.value, now, p.sequence), a.maxSamples)
            && after.watermark == (if known && !same && store.watermark != 0xFFFF_FFFF_FFFF_FFFF
                                   then store.watermark + 1 else store.watermark)
  {
    hide Appends, Trimmed, Sources;
    var k, x := p.Slot(), Sample(p.value, now, p.sequence);
    TrimmedAppends([], x, a.maxSamples);
    if k in store.series {
      TrimmedAppends(store.series[k].samples, x, a.maxSamples);
    }
  }

  // ------------------------------------------------------------------------
  // The series a requirement reads
  // ------------------------------------------------------------------------

  // A series of the path and kind with samples, trusted enough.
  ghost predicate Offers(store: Store, path: Id, r: Requirement, k: Key)
  {
    && k in store.series && k.path == path && k.kind == r.kind && store.series[k].samples != []
    && store.series[k].quality.Raw() <= r.minQuality.Raw()
  }

  // The chosen series is the most trusted one and, among equals, the one of the
  // smallest source; none is chosen only when none offers anything.
  lemma ChosenIsExact(store: Store, path: Id, r: Requirement)
    ensures match Chosen(store, path, r)
            case None => forall k :: !Offers(store, path, r, k)
            case Some(k) =>
              && Offers(store, path, r, k)
              && forall j :: Offers(store, path, r, j) ==>
                   && store.series[k].quality.Raw() <= store.series[j].quality.Raw()
                   && (store.series[k].quality == store.series[j].quality ==>
                         k.source == j.source || Less(k.source, j.source))
  {
    hide Preferred;
    forall k
      ensures Usable(store, path, r, k) <==> Offers(store, path, r, k)
    {
    }
    if Chosen(store, path, r).Some? {
      var k := Chosen(store, path, r).value;
      forall j | Offers(store, path, r, j)
        ensures store.series[k].quality.Raw() <= store.series[j].quality.Raw()
        ensures store.series[k].quality == store.series[j].quality ==> k.source == j.source || Less(k.source, j.source)
      {
        PreferredMeans(store, k, j);
      }
    } else {
      NoneOffers(store, path, r, store.series.Keys);
    }
  }

  lemma PreferredMeans(store: Store, k: Key, j: Key)
    requires k in store.series && j in store.series
    ensures Preferred(store, k, j) ==>
      && store.series[k].quality.Raw() <= store.series[j].quality.Raw()
      && (store.series[k].quality == store.series[j].quality ==> Less(k.source, j.source))
  {
  }

  // Some usable series of a set leads the others.
  ghost predicate Leads(store: Store, path: Id, r: Requirement, ks: set<Key>, k: Key)
  {
    && k in ks && Usable(store, path, r, k)
    && forall j :: j in ks && Usable(store, path, r, j) && j != k ==> Preferred(store, k, j)
  }

  lemma {:induction false} LeaderExists(store: Store, path: Id, r: Requirement, ks: set<Key>)
    ensures (exists j :: j in ks && Usable(store, path, r, j)) ==> exists k :: Leads(store, path, r, ks, k)
    decreases ks
  {
    hide Usable, Preferred;
    if ks != {} {
      var x :| x in ks;
      var rest := ks - {x};
      LeaderExists(store, path, r, rest);
      if Usable(store, path, r, x) {
        if exists j :: j in rest && Usable(store, path, r, j) {
          var y :| Leads(store, path, r, rest, y);
          LeaderGrows(store, path, r, ks, x, y);
        } else {
          assert Leads(store, path, r, ks, x);
        }
      } else if exists j :: j in ks && Usable(store, path, r, j) {
        var j :| j in ks && Usable(store, path, r, j);
        assert j in rest;
        var y :| Leads(store, path, r, rest, y);
        assert Leads(store, path, r, ks, y);
      }
    }
  }

  lemma LeaderGrows(store: Store, path: Id, r: Requirement, ks: set<Key>, x: Key, y: Key)
    requires x in ks && Usable(store, path, r, x) && Leads(store, path, r, ks - {x}, y)
    ensures exists k :: Leads(store, path, r, ks, k)
  {
    ChoiceIsTotal(store, path, r, x, y);
    if Preferred(store, x, y) {
      forall j | j in ks && Usable(store, path, r, j) && j != x
        ensures Preferred(store, x, j)
      {
        if j != y {
          PreferredTransitive(store, x, y, j);
        }
      }
      assert Leads(store, path, r, ks, x);
    } else {
      assert Leads(store, path, r, ks, y);
    }
  }

  lemma NoneOffers(store: Store, path: Id, r: Requirement, ks: set<Key>)
    requires Chosen(store, path, r).None? && ks == store.series.Keys
    ensures forall k :: !Usable(store, path, r, k)
  {
    LeaderExists(store, path, r, ks);
    if exists k :: Usable(store, path, r, k) {
      var j :| Usable(store, path, r, j);
      assert j in ks;
      var k :| Leads(store, path, r, ks, k);
      LeaderIsChosen(store, path, r, k);
    }
  }

  lemma LeaderIsChosen(store: Store, path: Id, r: Requirement, k: Key)
    requires Leads(store, path, r, store.series.Keys, k)
    ensures IsChosen(store, path, r, k)
  {
  }
}
