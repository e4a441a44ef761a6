// Commit fencing: what a commit that succeeds proves about everything that
// happened since its evaluation began, over every interleaving of steps.

module Fencing {
  import opened Base
  import opened Evidence
  import opened Outcomes
  import opened Policy
  import opened Records
  import opened Evaluation
  import opened Indexing
  import opened Durable
  import opened Fabric
  import opened Runs

  // ------------------------------------------------------------------------
  // Candidates under updates of the vector
  // ------------------------------------------------------------------------

  function CandidateOf(s: State, p: Id, path: Id): Option<Candidate>
  {
    if p in s.policies then Find(s.policies[p].candidates, path) else None
  }

  function MarkOf(s: State, p: Id, path: Id): u64
  {
    match CandidateOf(s, p, path)
    case None => 0
    case Some(c) => c.watermark
  }

  lemma {:induction false} FindInserted(cs: seq<Candidate>, c: Candidate, path: Id)
    ensures PathOf(c) != path ==> Find(Inserted(cs, c), path) == Find(cs, path)
  {
    if cs == [] || Less(PathOf(c), PathOf(cs[0])) {
      assert Inserted(cs, c)[1..] == cs;
    } else {
      assert Inserted(cs, c)[1..] == Inserted(cs[1..], c);
      FindInserted(cs[1..], c, path);
    }
  }

  lemma FindReplaced(cs: seq<Candidate>, c: Candidate, path: Id)
    requires Position(cs, PathOf(c)) < |cs|
    ensures var after := cs[Position(cs, PathOf(c)) := c];
            Find(after, path) == if PathOf(c) == path then Some(c) else Find(cs, path)
  {
    hide Position;
    var i := Position(cs, PathOf(c));
    var after := cs[i := c];
    assert forall k :: 0 <= k < |cs| ==> PathOf(after[k]) == PathOf(cs[k]);
    SamePathsSamePosition(after, cs, path);
  }

  lemma SamePathsSamePosition(a: seq<Candidate>, b: seq<Candidate>, path: Id)
    requires |a| == |b| && forall k :: 0 <= k < |a| ==> PathOf(a[k]) == PathOf(b[k])
    ensures Position(a, path) == Position(b, path)
  {
    hide Position;
  }

  // ------------------------------------------------------------------------
  // The path index reaches the policy
  // ------------------------------------------------------------------------

  ghost predicate Reaches(s: State, p: Id, path: Id)
  {
    CandidateOf(s, p, path).Some? && p in Get(s.index.byPath, path)
  }

  ghost predicate Grows(before: Index, after: Index, p: Id)
  {
    forall path :: p in Get(before, path) ==> p in Get(after, path)
  }

  lemma {:induction false} IndexPathsGrows(index: Index, cs: seq<Candidate>, policy: Id, cap: nat, p: Id)
    ensures Grows(index, IndexPaths(index, cs, policy, cap), p)
    decreases |cs|
  {
    if cs != [] && |index| < cap {
      IndexPathsGrows(Add(index, PathOf(cs[0]), policy), cs[1..], policy, cap, p);
    }
  }

  lemma DropKeepsOthers(index: Index, keys: set<Id>, policy: Id, p: Id)
    requires p != policy
    ensures Grows(index, DropAll(index, keys, policy), p)
  {
  }

  // ------------------------------------------------------------------------
  // Notifications and the watermark of one path
  // ------------------------------------------------------------------------

  predicate NoteApplies(s: State, n: Notification, ctx: Context, limits: Limits)
  {
    && NoteRefusal(s, n, ctx).None? && n.policy in s.policies
    && EventRefusal(s.policies[n.policy].candidates, n, limits).None?
  }

  // How often a notification moves the watermark of a path: at most once.
  function NoteTouches(s: State, n: Notification, ctx: Context, limits: Limits, path: Id): nat
  {
    if NoteApplies(s, n, ctx, limits) && Invalidates(n.event) && n.binding.path == path then 1 else 0
  }

  // The events that rewrite a binding without moving any watermark.
  predicate NoteRebinds(s: State, n: Notification, ctx: Context, limits: Limits, p: Id, path: Id)
  {
    NoteApplies(s, n, ctx, limits) && !Invalidates(n.event) && n.policy == p && n.binding.path == path
  }

  function NotesTouch(s: State, ns: seq<Notification>, ctx: Context, limits: Limits, path: Id): nat
    decreases |ns|
  {
    if ns == [] then 0
    else
      var first := NoteStep(s, ns[0], ctx, limits);
      NoteTouches(s, ns[0], ctx, limits, path)
      + if first.outcome != POLICY_UPDATED then 0 else NotesTouch(first.state, ns[1..], ctx, limits, path)
  }

  predicate NotesRebind(s: State, ns: seq<Notification>, ctx: Context, limits: Limits, p: Id, path: Id)
    decreases |ns|
  {
    ns != [] &&
      var first := NoteStep(s, ns[0], ctx, limits);
      NoteRebinds(s, ns[0], ctx, limits, p, path)
      || (first.outcome == POLICY_UPDATED && NotesRebind(first.state, ns[1..], ctx, limits, p, path))
  }

  // From s to t the watermark of the path moved n times, and unless something
  // moved or rebound it the candidate is exactly what it was.
  ghost predicate Tracks(s: State, t: State, p: Id, path: Id, n: nat, rebound: bool)
  {
    && Reaches(t, p, path)
    && MarkOf(t, p, path) == (MarkOf(s, p, path) + n) % TWO_64
    && (n == 0 && !rebound ==> CandidateOf(t, p, path) == CandidateOf(s, p, path))
  }

  lemma TracksCompose(s: State, t: State, u: State, p: Id, path: Id, n: nat, m: nat, a: bool, b: bool)
    requires Tracks(s, t, p, path, n, a) && Tracks(t, u, p, path, m, b)
    ensures Tracks(s, u, p, path, n + m, a || b)
  {
    WrapTwice(MarkOf(s, p, path), n, m);
  }

  lemma WrapTwice(x: nat, n: nat, m: nat)
    ensures ((x + n) % TWO_64 + m) % TWO_64 == (x + n + m) % TWO_64
  {
    var q := (x + n) / TWO_64;
    assert x + n == q * TWO_64 + (x + n) % TWO_64;
    ModShift((x + n) % TWO_64 + m, q);
  }

  lemma ModShift(y: nat, q: nat)
    ensures (q * TWO_64 + y) % TWO_64 == y % TWO_64
  {
    assert q * TWO_64 + y == (q + y / TWO_64) * TWO_64 + y % TWO_64;
  }

  lemma TracksNothing(s: State, p: Id, path: Id)
    requires Reaches(s, p, path)
    ensures Tracks(s, s, p, path, 0, false)
  {
  }

  lemma ReboundKeepsPath(b: Binding, n: Notification)
    requires b.path == n.binding.path
    ensures Rebound(b, n).path == b.path
  {
  }

  lemma WithCandidateFinds(r: PolicyRecord, c: Candidate, path: Id)
    requires Find(r.candidates, PathOf(c)).Some?
    ensures Position(r.candidates, PathOf(c)) < |r.candidates|
    ensures Find(WithCandidate(r, PathOf(c), c).candidates, path)
         == if PathOf(c) == path then Some(c) else Find(r.candidates, path)
  {
    FindReplaced(r.candidates, c, path);
  }

  // A record whose candidates were rewritten at one path, seen from another.
  lemma RewriteTracks(s: State, id: Id, r: PolicyRecord, byPath: Index, p: Id, path: Id, rebound: bool)
    requires Reaches(s, p, path) && id in s.policies && Grows(s.index.byPath, byPath, p)
    requires id == p ==> Find(r.candidates, path).Some?
                         && Find(r.candidates, path).value.watermark == MarkOf(s, p, path)
    requires id == p && !rebound ==> Find(r.candidates, path) == CandidateOf(s, p, path)
    ensures var t := s.(policies := s.policies[id := r], index := s.index.(byPath := byPath));
            Tracks(s, t, p, path, 0, rebound)
  {
  }

  lemma BoundTracks(s: State, n: Notification, limits: Limits, p: Id, path: Id)
    requires Reaches(s, p, path) && n.policy in s.policies
    ensures Tracks(s, Bound(s, n, limits), p, path, 0, n.policy == p && n.binding.path == path)
  {
    hide Rebound, Find, Inserted, WithCandidate, Tracks, IndexPaths;
    var r := s.policies[n.policy];
    var found := Find(r.candidates, n.binding.path);
    var rebound := n.policy == p && n.binding.path == path;
    TracksNothing(s, p, path);
    TracksForget(s, s, p, path, rebound);
    if found.Some? {
      var c := found.value.(binding := Rebound(found.value.binding, n));
      ReboundKeepsPath(found.value.binding, n);
      WithCandidateFinds(r, c, path);
      RewriteTracks(s, n.policy, WithCandidate(r, n.binding.path, c), s.index.byPath, p, path, rebound);
    } else if n.event.DeclareCandidate? {
      var inserted := Inserted(r.candidates, Candidate(n.binding, 0));
      InsertTracks(s, n, limits, p, path, inserted);
    }
  }

  lemma InsertTracks(s: State, n: Notification, limits: Limits, p: Id, path: Id, inserted: seq<Candidate>)
    requires Reaches(s, p, path) && n.policy in s.policies
    requires Find(s.policies[n.policy].candidates, n.binding.path).None?
    requires inserted == Inserted(s.policies[n.policy].candidates, Candidate(n.binding, 0))
    ensures var t := s.(policies := s.policies[n.policy := s.policies[n.policy].(candidates := inserted)]);
            Tracks(s, Reindexed(t, n.policy, limits), p, path, 0, n.policy == p && n.binding.path == path)
  {
    hide Tracks, IndexPaths, AddAll, Find;
    var r := s.policies[n.policy].(candidates := inserted);
    FindInserted(s.policies[n.policy].candidates, Candidate(n.binding, 0), path);
    IndexPathsGrows(s.index.byPath, inserted, n.policy, PathCap(limits), p);
    var t := s.(policies := s.policies[n.policy := r]);
    RewriteTracks(s, n.policy, r, Reindexed(t, n.policy, limits).index.byPath, p, path,
                  n.policy == p && n.binding.path == path);
    SameCandidates(s.(policies := s.policies[n.policy := r],
                      index := s.index.(byPath := Reindexed(t, n.policy, limits).index.byPath)),
                   Reindexed(t, n.policy, limits), s, p, path, n.policy == p && n.binding.path == path);
  }

  lemma SameCandidates(t: State, u: State, s: State, p: Id, path: Id, rebound: bool)
    requires Tracks(s, t, p, path, 0, rebound)
    requires u.policies == t.policies && u.index.byPath == t.index.byPath
    ensures Tracks(s, u, p, path, 0, rebound)
  {
  }

  lemma BumpedFinds(r: PolicyRecord, at: Id, path: Id)
    ensures match Find(r.candidates, path)
            case None => Find(Bumped(r, at).candidates, path).None?
            case Some(c) =>
              Find(Bumped(r, at).candidates, path) ==
              Some(if at == path then c.(watermark := WrapAdd(c.watermark, 1)) else c)
  {
    hide Find, WithCandidate;
    var found := Find(r.candidates, at);
    if found.Some? {
      WithCandidateFinds(r, found.value.(watermark := WrapAdd(found.value.watermark, 1)), path);
    }
  }

  lemma InvalidatedTracks(s: State, at: Id, p: Id, path: Id)
    requires Reaches(s, p, path)
    ensures Tracks(s, Invalidated(s, at), p, path, if at == path then 1 else 0, false)
  {
    hide Find, Bumped;
    BumpedFinds(s.policies[p], at, path);
  }

  lemma NoteTracks(s: State, n: Notification, ctx: Context, limits: Limits, p: Id, path: Id)
    requires Reaches(s, p, path)
    ensures Tracks(s, NoteStep(s, n, ctx, limits).state, p, path,
                   NoteTouches(s, n, ctx, limits, path), NoteRebinds(s, n, ctx, limits, p, path))
  {
    hide EventRefusal, NoteRefusal, Bound, Invalidated, Tracks;
    TracksNothing(s, p, path);
    NoteNeedsPolicy(s, n, ctx);
    if NoteApplies(s, n, ctx, limits) {
      var bound := Bound(s, n, limits);
      BoundTracks(s, n, limits, p, path);
      if Invalidates(n.event) {
        TracksReach(s, bound, p, path, n.policy == p && n.binding.path == path);
        InvalidatedTracks(bound, n.binding.path, p, path);
        TracksCompose(s, bound, Invalidated(bound, n.binding.path), p, path, 0,
                      if n.binding.path == path then 1 else 0, n.policy == p && n.binding.path == path, false);
        TracksForget(s, Invalidated(bound, n.binding.path), p, path, n.policy == p && n.binding.path == path);
      }
    }
  }

  lemma TracksReach(s: State, t: State, p: Id, path: Id, rebound: bool)
    requires Tracks(s, t, p, path, 0, rebound)
    ensures Reaches(t, p, path)
  {
  }

  // A rebinding that also moved the watermark needs no separate mention.
  lemma TracksForget(s: State, t: State, p: Id, path: Id, rebound: bool)
    ensures Tracks(s, t, p, path, 1, rebound) ==> Tracks(s, t, p, path, 1, false)
    ensures Tracks(s, t, p, path, 0, rebound) && !rebound ==> Tracks(s, t, p, path, 0, false)
  {
  }

  lemma {:induction false} NotesTrack(s: State, ns: seq<Notification>, ctx: Context, limits: Limits, p: Id, path: Id)
    requires Reaches(s, p, path)
    ensures Tracks(s, NotesStep(s, ns, ctx, limits).state, p, path,
                   NotesTouch(s, ns, ctx, limits, path), NotesRebind(s, ns, ctx, limits, p, path))
    decreases |ns|
  {
    hide NoteStep, Tracks, NoteTouches, NoteRebinds;
    TracksNothing(s, p, path);
    if ns != [] {
      NoteTracks(s, ns[0], ctx, limits, p, path);
      var first := NoteStep(s, ns[0], ctx, limits);
      var n, a := NoteTouches(s, ns[0], ctx, limits, path), NoteRebinds(s, ns[0], ctx, limits, p, path);
      if first.outcome == POLICY_UPDATED {
        TracksReaches(s, first.state, p, path, n, a);
        NotesTrack(first.state, ns[1..], ctx, limits, p, path);
        TracksCompose(s, first.state, NotesStep(first.state, ns[1..], ctx, limits).state, p, path, n,
                      NotesTouch(first.state, ns[1..], ctx, limits, path), a,
                      NotesRebind(first.state, ns[1..], ctx, limits, p, path));
      }
    }
  }

  lemma TracksReaches(s: State, t: State, p: Id, path: Id, n: nat, rebound: bool)
    requires Tracks(s, t, p, path, n, rebound)
    ensures Reaches(t, p, path)
  {
  }

  // ------------------------------------------------------------------------
  // One step
  // ------------------------------------------------------------------------

  ghost function Touches(s: State, e: Event, path: Id, limits: Limits): nat
  {
    if e.op.Upstream? && UpstreamRefusal(s, e.op.notes, e.op.context, e.op.fingerprint, limits).None?
    then NotesTouch(s, e.op.notes, e.op.context, limits, path) else 0
  }

  ghost predicate Rebinds(s: State, e: Event, p: Id, path: Id, limits: Limits)
  {
    e.op.Upstream? && UpstreamRefusal(s, e.op.notes, e.op.context, e.op.fingerprint, limits).None?
    && NotesRebind(s, e.op.notes, e.op.context, limits, p, path)
  }

  // The policy kept its candidates and its place in the path index.
  ghost predicate Steady(s: State, t: State, p: Id)
  {
    && p in s.policies && p in t.policies && t.policies[p].candidates == s.policies[p].candidates
    && Grows(s.index.byPath, t.index.byPath, p)
  }

  lemma SteadyTracks(s: State, t: State, p: Id, path: Id)
    requires Steady(s, t, p) && Reaches(s, p, path)
    ensures Tracks(s, t, p, path, 0, false)
  {
  }

  lemma CreateIsSteady(s: State, q: CreateRequest, id: Id, now: Ticks, limits: Limits, p: Id)
    requires p in s.policies
    ensures Steady(s, CreateStep(s, q, id, now, limits).state, p)
  {
    hide CreateRefusal, Recorded, IndexPaths, AddAll;
    RecordedKeepsPolicies(s, q.context.attempt, q.fingerprint, ALREADY_EXISTS, limits);
    RecordedKeepsPolicies(s, q.context.attempt, q.fingerprint, RESOURCE_LIMIT, limits);
    var stored := s.(
      policies := if id in s.policies then s.policies else s.policies[id := NewRecord(NewPolicy(s, q, id, now))],
      names := s.names[q.name := id]);
    IndexPathsGrows(s.index.byPath, stored.policies[id].candidates, id, PathCap(limits), p);
    RecordedKeepsPolicies(Reindexed(stored, id, limits), q.context.attempt, q.fingerprint, POLICY_CREATED, limits);
  }

  lemma UpdateIsSteady(s: State, q: UpdateRequest, now: Ticks, limits: Limits, p: Id)
    requires p in s.policies && (q.policy == p ==> UpdateRefusal(s, q, limits).Some?)
    ensures Steady(s, UpdateStep(s, q, now, limits).state, p)
  {
    hide Updated, Recorded, UpdateRefusal, IndexPaths, AddAll, DropAll, Drop, Add;
    UpdateNeedsPolicy(s, q, limits);
    if UpdateRefusal(s, q, limits).None? {
      var bare := Unindexed(s, q.policy);
      var updated := bare.(policies := s.policies[q.policy := Updated(s.policies[q.policy], q, s.epoch, now)]);
      DropKeepsOthers(s.index.byPath, Paths(s.policies[q.policy].candidates), q.policy, p);
      IndexPathsGrows(bare.index.byPath, updated.policies[q.policy].candidates, q.policy, PathCap(limits), p);
      RecordedKeepsPolicies(Reindexed(updated, q.policy, limits), q.context.attempt, q.fingerprint, POLICY_UPDATED,
                            limits);
    }
  }

  lemma CommitIsSteady(
    s: State, t: Ticket, ctx: Context, fingerprint: Id, minted: Minted, now: Ticks, limits: Limits, p: Id)
    requires p in s.policies
    ensures Steady(s, CommitStep(s, t, ctx, fingerprint, minted, now, limits).state, p)
  {
    hide CommitRefusal, VerifyRefusal, Recorded, AsksForMove, CommittedPreference, Armed, Anchored;
    CommitNeedsPolicy(s, t, ctx, fingerprint);
    if CommitRefusal(s, t, ctx, fingerprint).None? {
      var id := t.dependencies.policy;
      var r := s.policies[id];
      RecordedKeepsPolicies(s.(policies := s.policies[id := SuppressionNoted(s, r, t, minted, now, limits)]),
                            ctx.attempt, fingerprint, t.verdict.outcome, limits);
      RecordedKeepsPolicies(s, ctx.attempt, fingerprint, NO_CHANGE, limits);
      VerifiedHasTarget(s, r, t.verdict, now, limits);
      if VerifyRefusal(s, r, t.verdict, now, limits).None? {
        var c := Find(r.candidates, t.verdict.target).value;
        RecordedKeepsPolicies(s.(policies := s.policies[id := Committed(r, c, t, ctx, s.epoch, minted, now, limits)]),
                              ctx.attempt, fingerprint, DECISION_COMMITTED, limits);
      }
    }
  }

  lemma RollbackIsSteady(
    s: State, policy: Id, ctx: Context, fingerprint: Id, minted: Minted, now: Ticks, limits: Limits, p: Id)
    requires p in s.policies
    ensures Steady(s, RollbackStep(s, policy, ctx, fingerprint, minted, now, limits).state, p)
  {
    hide RollbackRefusal, RestoreRefusal, Recorded, RestoredPreference, Anchored;
    RollbackNeedsPolicy(s, policy, ctx, fingerprint);
    if RollbackRefusal(s, policy, ctx, fingerprint).None? {
      var r := s.policies[policy];
      var refused := RestoreRefusal(r);
      if refused.Some? {
        RecordedKeepsPolicies(s, ctx.attempt, fingerprint, refused.value.0, limits);
      } else {
        RestoreHasTarget(r);
        var c := Find(r.candidates, r.stable.path).value;
        RecordedKeepsPolicies(s.(policies := s.policies[policy := RolledBack(r, c, ctx, s, minted, now, limits)]),
                              ctx.attempt, fingerprint, DECISION_COMMITTED, limits);
      }
    }
  }

  lemma LabelIsSteady(s: State, policy: Id, event: LifecycleEvent, ctx: Context, p: Id)
    requires p in s.policies
    ensures Steady(s, TransitionStep(s, policy, event, ctx).state, p)
  {
    hide TargetRefusal, NextLifecycle;
  }

  lemma RevokeIsSteady(
    s: State, policy: Id, reason: RevocationReason, detail: seq<byte>, ctx: Context, limits: Limits, p: Id)
    requires p in s.policies
    ensures Steady(s, RevokeStep(s, policy, reason, detail, ctx, limits).state, p)
  {
    hide TargetRefusal;
  }

  lemma AdvanceIsSteady(s: State, p: Id)
    requires p in s.policies
    ensures Steady(s, AdvanceEpochStep(s).state, p)
  {
  }

  // Whatever a step that neither updates the policy nor restarts does, the
  // watermark of each of its indexed paths moves by exactly the number of
  // invalidations of that path.
  lemma StepTracks(s: State, e: Event, p: Id, path: Id, limits: Limits)
    requires Reaches(s, p, path) && !UpdatesPolicy(s, e, p, limits) && !Restarts(s, e, limits)
    ensures Tracks(s, After(s, e, limits), p, path, Touches(s, e, path, limits), Rebinds(s, e, p, path, limits))
  {
    hide RegisterStep, FenceStep, AdvanceEpochStep, CreateStep, UpdateStep, TransitionStep, RevokeStep, NotesStep,
         PublishStep, CommitStep, RollbackStep, UpdateRefusal, UpstreamRefusal, Tracks, Recorded, Recovered, NotesTouch,
         NotesRebind;
    if !e.op.Upstream? {
      StepIsSteady(s, e, p, limits);
      SteadyTracks(s, After(s, e, limits), p, path);
    } else {
      TracksNothing(s, p, path);
      NotesTrack(s, e.op.notes, e.op.context, limits, p, path);
      var u := NotesStep(s, e.op.notes, e.op.context, limits).state;
      TracksReaches(s, u, p, path, NotesTouch(s, e.op.notes, e.op.context, limits, path),
                    NotesRebind(s, e.op.notes, e.op.context, limits, p, path));
      RecordedTracks(u, e.op.context.attempt, e.op.fingerprint, limits, p, path);
      TracksCompose(s, u, Recorded(u, e.op.context.attempt, e.op.fingerprint, POLICY_UPDATED, limits), p, path,
                    NotesTouch(s, e.op.notes, e.op.context, limits, path), 0,
                    NotesRebind(s, e.op.notes, e.op.context, limits, p, path), false);
    }
  }

  lemma RecordedTracks(s: State, attempt: Id, fingerprint: Id, limits: Limits, p: Id, path: Id)
    requires Reaches(s, p, path)
    ensures Tracks(s, Recorded(s, attempt, fingerprint, POLICY_UPDATED, limits), p, path, 0, false)
  {
    hide Logged;
  }

  lemma StepIsSteady(s: State, e: Event, p: Id, limits: Limits)
    requires p in s.policies && !e.op.Upstream? && !UpdatesPolicy(s, e, p, limits) && !Restarts(s, e, limits)
    ensures Steady(s, After(s, e, limits), p)
  {
    hide RegisterStep, FenceStep, AdvanceEpochStep, CreateStep, UpdateStep, TransitionStep, RevokeStep, UpstreamStep,
         PublishStep, CommitStep, RollbackStep, UpdateRefusal, Recovered, RecoveryRefusal, BuildDurable;
    match e.op
    case Register(publisher, boot, scope, session) => RegisterKeeps(s, publisher, boot, scope, session, limits);
    case FencePublisher(publisher, boot) => FenceKeeps(s, publisher, boot);
    case AdvanceEpoch => AdvanceIsSteady(s, p);
    case Create(q, id) => CreateIsSteady(s, q, id, e.now, limits, p);
    case Update(q) => UpdateIsSteady(s, q, e.now, limits, p);
    case Transition(policy, event, ctx) => LabelIsSteady(s, policy, event, ctx, p);
    case RevokePolicy(policy, reason, detail, ctx) => RevokeIsSteady(s, policy, reason, detail, ctx, limits, p);
    case Publish(batch, ctx, fingerprint) => PublishKeeps(s, batch, ctx, fingerprint, limits);
    case Commit(t, ctx, fingerprint, minted) => CommitIsSteady(s, t, ctx, fingerprint, minted, e.now, limits, p);
    case Rollback(policy, ctx, fingerprint, minted) =>
      RollbackIsSteady(s, policy, ctx, fingerprint, minted, e.now, limits, p);
    case _ =>
  }

  // ------------------------------------------------------------------------
  // Counters never return
  // ------------------------------------------------------------------------

  ghost predicate SameCounters(s: State, t: State)
  {
    && t.epoch == s.epoch && t.authorityGeneration == s.authorityGeneration
    && t.evidenceGeneration == s.evidenceGeneration && t.evidence == s.evidence
  }

  ghost predicate SameAuthority(s: State, t: State)
  {
    t.registrations == s.registrations && t.fenced == s.fenced
  }

  // Counters, caller authority and revocations unchanged.
  ghost predicate SameBooks(s: State, t: State)
  {
    SameCounters(s, t) && SameAuthority(s, t) && t.revocations == s.revocations
  }

  lemma CreateCounters(s: State, q: CreateRequest, id: Id, now: Ticks, limits: Limits)
    ensures SameBooks(s, CreateStep(s, q, id, now, limits).state)
  {
    hide CreateRefusal, IndexedWith, Logged, NewRecord, NewPolicy;
  }

  lemma UpdateCounters(s: State, q: UpdateRequest, now: Ticks, limits: Limits)
    ensures SameBooks(s, UpdateStep(s, q, now, limits).state)
  {
    hide UpdateRefusal, IndexedWith, IndexedWithout, Logged, Updated;
    UpdateNeedsPolicy(s, q, limits);
  }

  lemma LabelCounters(s: State, e: Event, limits: Limits)
    ensures e.op.Transition? ==> SameBooks(s, TransitionStep(s, e.op.policy, e.op.event, e.op.context).state)
    ensures e.op.RevokePolicy? ==>
      var t := RevokeStep(s, e.op.policy, e.op.reason, e.op.detail, e.op.context, limits).state;
      SameCounters(s, t) && SameAuthority(s, t)
  {
    hide TargetRefusal, Relabelled, NextLifecycle;
  }

  lemma CommitCounters(s: State, t: Ticket, ctx: Context, fingerprint: Id, minted: Minted, now: Ticks, limits: Limits)
    ensures SameBooks(s, CommitStep(s, t, ctx, fingerprint, minted, now, limits).state)
  {
    hide CommitRefusal, VerifyRefusal, Committed, SuppressionNoted, Logged, AsksForMove;
  }

  lemma RollbackCounters(s: State, p: Id, ctx: Context, fingerprint: Id, minted: Minted, now: Ticks, limits: Limits)
    ensures SameBooks(s, RollbackStep(s, p, ctx, fingerprint, minted, now, limits).state)
  {
    hide RolledBack, RollbackRefusal, RestoreRefusal, Logged;
  }

  lemma BoundCounters(s: State, n: Notification, limits: Limits)
    requires n.policy in s.policies
    ensures SameBooks(s, Bound(s, n, limits))
  {
    hide Rebound, Inserted, IndexedWith, WithCandidate, Find;
  }

  lemma InvalidatedCounters(s: State, path: Id)
    ensures SameBooks(s, Invalidated(s, path))
  {
  }

  lemma NoteCounters(s: State, n: Notification, ctx: Context, limits: Limits)
    ensures SameBooks(s, NoteStep(s, n, ctx, limits).state)
  {
    hide NoteRefusal, EventRefusal, Bound, Invalidated, SameBooks;
    BooksCompose(s, s, s);
    NoteNeedsPolicy(s, n, ctx);
    if NoteRefusal(s, n, ctx).None? {
      var bound := Bound(s, n, limits);
      BoundCounters(s, n, limits);
      InvalidatedCounters(bound, n.binding.path);
      BooksCompose(s, bound, Invalidated(bound, n.binding.path));
    }
  }

  lemma BooksCompose(s: State, t: State, u: State)
    ensures SameBooks(s, t) && SameBooks(t, u) ==> SameBooks(s, u)
    ensures SameBooks(s, s)
  {
  }

  lemma {:induction false} NotesCounters(s: State, ns: seq<Notification>, ctx: Context, limits: Limits)
    ensures SameBooks(s, NotesStep(s, ns, ctx, limits).state)
    decreases |ns|
  {
    hide NoteStep, SameBooks;
    BooksCompose(s, s, s);
    if ns != [] {
      var first := NoteStep(s, ns[0], ctx, limits);
      NoteCounters(s, ns[0], ctx, limits);
      if first.outcome == POLICY_UPDATED {
        NotesCounters(first.state, ns[1..], ctx, limits);
        BooksCompose(s, first.state, NotesStep(first.state, ns[1..], ctx, limits).state);
      }
    }
  }

  lemma UpstreamCounters(s: State, ns: seq<Notification>, ctx: Context, fingerprint: Id, limits: Limits)
    ensures SameBooks(s, UpstreamStep(s, ns, ctx, fingerprint, limits).state)
  {
    hide NotesStep, Logged, UpstreamRefusal;
    NotesCounters(s, ns, ctx, limits);
  }

  ghost predicate AcceptsEvidence(s: State, e: Event, limits: Limits)
  {
    && e.op.Publish? && PublishRefusal(s, e.op.batch, e.op.context, e.op.fingerprint, limits).None?
    && Next(s.evidenceGeneration).Some?
  }

  ghost predicate OpensEpoch(s: State, e: Event, limits: Limits)
  {
    (e.op.AdvanceEpoch? && Next(s.epoch).Some?) || Restarts(s, e, limits)
  }

  lemma PublishCounters(s: State, e: Event, limits: Limits)
    requires e.op.Publish?
    ensures var t := PublishStep(s, e.op.batch, e.op.context, e.op.fingerprint, limits).state;
            && t.epoch == s.epoch && t.authorityGeneration == s.authorityGeneration && SameAuthority(s, t)
            && t.evidenceGeneration == s.evidenceGeneration + (if AcceptsEvidence(s, e, limits) then 1 else 0)
  {
    hide PublishRefusal, ApplyAll, IndexSources, AdmissionOf, Validate, Logged;
  }

  ghost function GenerationOf(s: State, p: Id): int { if p in s.policies then s.policies[p].policy.generation else -1 }

  // Whether a step undoes what an evaluation of the policy relied on.
  ghost predicate Disturbs(s: State, e: Event, p: Id, limits: Limits)
  {
    OpensEpoch(s, e, limits) || AcceptsEvidence(s, e, limits) || UpdatesPolicy(s, e, p, limits)
  }

  // No counter decreases, and each disturbance strictly advances one of them.
  ghost predicate Advances(s: State, t: State, p: Id, strictly: bool)
  {
    && s.epoch <= t.epoch && s.evidenceGeneration <= t.evidenceGeneration && GenerationOf(s, p) <= GenerationOf(t, p)
    && (strictly ==> s.epoch < t.epoch || s.evidenceGeneration < t.evidenceGeneration
                     || GenerationOf(s, p) < GenerationOf(t, p))
  }

  lemma StepCounters(s: State, e: Event, limits: Limits)
    ensures var t := After(s, e, limits);
            && s.epoch <= t.epoch && s.evidenceGeneration <= t.evidenceGeneration
            && (OpensEpoch(s, e, limits) ==> s.epoch < t.epoch)
            && (AcceptsEvidence(s, e, limits) ==> s.evidenceGeneration < t.evidenceGeneration)
            && (!OpensEpoch(s, e, limits) && !e.op.Publish? ==> SameCounters(s, t) && t.evidence == s.evidence)
  {
    hide RegisterStep, FenceStep, CreateStep, UpdateStep, TransitionStep, RevokeStep, UpstreamStep, PublishStep,
         CommitStep, RollbackStep, Recovered, BuildDurable, PublishRefusal;
    match e.op
    case Register(publisher, boot, scope, session) => RegisterKeeps(s, publisher, boot, scope, session, limits);
    case FencePublisher(publisher, boot) => FenceKeeps(s, publisher, boot);
    case AdvanceEpoch =>
    case Create(q, id) => CreateCounters(s, q, id, e.now, limits);
    case Update(q) => UpdateCounters(s, q, e.now, limits);
    case Transition(_, _, _) => LabelCounters(s, e, limits);
    case RevokePolicy(_, _, _, _) => LabelCounters(s, e, limits);
    case Upstream(notes, ctx, fingerprint) => UpstreamCounters(s, notes, ctx, fingerprint, limits);
    case Publish(_, _, _) => PublishCounters(s, e, limits);
    case Commit(t, ctx, fingerprint, minted) => CommitCounters(s, t, ctx, fingerprint, minted, e.now, limits);
    case Rollback(p, ctx, fingerprint, minted) => RollbackCounters(s, p, ctx, fingerprint, minted, e.now, limits);
    case Restart(saved) =>
      RestartCounters(s, saved, e.now, limits);
  }

  // Only registration, fencing, an epoch advance and recovery touch caller
  // authority.
  lemma StepAuthority(s: State, e: Event, limits: Limits)
    requires !e.op.Register? && !e.op.FencePublisher? && !e.op.AdvanceEpoch? && !e.op.Restart?
    ensures SameAuthority(s, After(s, e, limits))
  {
    hide RegisterStep, FenceStep, CreateStep, UpdateStep, TransitionStep, RevokeStep, UpstreamStep, PublishStep,
         CommitStep, RollbackStep, Recovered, BuildDurable, PublishRefusal;
    match e.op
    case Create(q, id) => CreateCounters(s, q, id, e.now, limits);
    case Update(q) => UpdateCounters(s, q, e.now, limits);
    case Transition(_, _, _) => LabelCounters(s, e, limits);
    case RevokePolicy(_, _, _, _) => LabelCounters(s, e, limits);
    case Upstream(notes, ctx, fingerprint) => UpstreamCounters(s, notes, ctx, fingerprint, limits);
    case Publish(_, _, _) => PublishCounters(s, e, limits);
    case Commit(t, ctx, fingerprint, minted) => CommitCounters(s, t, ctx, fingerprint, minted, e.now, limits);
    case Rollback(p, ctx, fingerprint, minted) => RollbackCounters(s, p, ctx, fingerprint, minted, e.now, limits);
    case _ =>
  }

  lemma RestartCounters(s: State, saved: SaveTimes, now: Ticks, limits: Limits)
    ensures var d := Stripped(BuildDurable(s, saved));
            RecoveryRefusal(d, limits).None? ==>
              RestartStep(s, saved, now, limits).state.epoch == s.epoch + 1
              && RestartStep(s, saved, now, limits).state.evidenceGeneration == s.evidenceGeneration
  {
    hide Recovered, InOrderOf, AllHistory, SavedTiming;
    var d := Stripped(BuildDurable(s, saved));
    if RecoveryRefusal(d, limits).None? {
      RecoveredFacts(d, now, limits);
    }
  }

  lemma StepGeneration(s: State, e: Event, p: Id, limits: Limits)
    requires Keyed(s) && p in s.policies
    ensures GenerationOf(After(s, e, limits), p)
         == GenerationOf(s, p) + (if UpdatesPolicy(s, e, p, limits) then 1 else 0)
  {
    hide After, CommitsTicket, RollbackRefusal, RestoreRefusal, UpdateRefusal, RecoveryRefusal, BuildDurable,
         RestoredTiming, SavedTiming, CommittedPreference, RestoredPreference, Armed, Anchored;
    Evolution(s, e, p, limits);
    if UpdatesPolicy(s, e, p, limits) {
      UpdateNeedsPolicy(s, e.op.update, limits);
    }
  }

  // ------------------------------------------------------------------------
  // Runs
  // ------------------------------------------------------------------------

  // No step of the run opened an epoch, accepted evidence or updated the policy.
  ghost predicate Undisturbed(s: State, es: seq<Event>, p: Id, limits: Limits)
    decreases |es|
  {
    es != [] ==> !Disturbs(s, es[0], p, limits) && Undisturbed(After(s, es[0], limits), es[1..], p, limits)
  }

  // How often the run invalidated a path.
  ghost function TotalTouches(s: State, es: seq<Event>, path: Id, limits: Limits): nat
    decreases |es|
  {
    if es == [] then 0
    else Touches(s, es[0], path, limits) + TotalTouches(After(s, es[0], limits), es[1..], path, limits)
  }

  // Whether the run re-declared or re-weighted the candidate or cleared its
  // hard-failure signal.
  ghost predicate EverRebinds(s: State, es: seq<Event>, p: Id, path: Id, limits: Limits)
    decreases |es|
  {
    es != [] && (Rebinds(s, es[0], p, path, limits) || EverRebinds(After(s, es[0], limits), es[1..], p, path, limits))
  }

  lemma {:induction false} RunCounters(s: State, es: seq<Event>, p: Id, limits: Limits)
    requires Keyed(s) && p in s.policies
    ensures Advances(s, Exec(s, es, limits), p, !Undisturbed(s, es, p, limits))
    decreases |es|
  {
    hide After, OpensEpoch, AcceptsEvidence, UpdatesPolicy;
    if es != [] {
      StepCounters(s, es[0], limits);
      StepGeneration(s, es[0], p, limits);
      StepKeeps(s, es[0], p, limits);
      RunCounters(After(s, es[0], limits), es[1..], p, limits);
    }
  }

  lemma StepKeeps(s: State, e: Event, p: Id, limits: Limits)
    requires Keyed(s)
    ensures Keyed(After(s, e, limits))
    ensures p in s.policies ==> p in After(s, e, limits).policies
  {
    hide After, Change;
    KeyedStep(s, e, limits);
    if p in s.policies {
      Evolution(s, e, p, limits);
    }
  }

  lemma {:induction false} RunTracks(s: State, es: seq<Event>, p: Id, path: Id, limits: Limits)
    requires Reaches(s, p, path) && Undisturbed(s, es, p, limits)
    ensures Tracks(s, Exec(s, es, limits), p, path, TotalTouches(s, es, path, limits),
                   EverRebinds(s, es, p, path, limits))
    decreases |es|
  {
    hide After, AcceptsEvidence, UpdatesPolicy, Tracks, Touches, Rebinds, Restarts;
    TracksNothing(s, p, path);
    if es != [] {
      var t := After(s, es[0], limits);
      StepTracks(s, es[0], p, path, limits);
      TracksReaches(s, t, p, path, Touches(s, es[0], path, limits), Rebinds(s, es[0], p, path, limits));
      RunTracks(t, es[1..], p, path, limits);
      TracksCompose(s, t, Exec(t, es[1..], limits), p, path, Touches(s, es[0], path, limits),
                    TotalTouches(t, es[1..], path, limits), Rebinds(s, es[0], p, path, limits),
                    EverRebinds(t, es[1..], p, path, limits));
    }
  }

  // ------------------------------------------------------------------------
  // What a commit compares
  // ------------------------------------------------------------------------

  ghost predicate Complete(d: Dependencies)
  {
    |d.paths| == |d.authorities| == |d.watermarks|
  }

  ghost predicate SameDependencies(cs: seq<Candidate>, d: Dependencies)
    requires Complete(d)
  {
    && |cs| == |d.paths|
    && forall i :: 0 <= i < |cs| ==>
         && PathOf(cs[i]) == d.paths[i] && cs[i].watermark == d.watermarks[i]
         && !AuthorityMoved(d.authorities[i], cs[i].binding.authority)
  }

  lemma {:induction false} DriftFromIsExact(cs: seq<Candidate>, d: Dependencies, i: nat)
    requires Complete(d) && i <= |cs| == |d.paths|
    ensures DriftFrom(cs, d, i).None? <==>
      forall j :: i <= j < |cs| ==>
        && PathOf(cs[j]) == d.paths[j] && cs[j].watermark == d.watermarks[j]
        && !AuthorityMoved(d.authorities[j], cs[j].binding.authority)
    decreases |cs| - i
  {
    if i < |cs| {
      DriftFromIsExact(cs, d, i + 1);
    }
  }

  // The drift check passes exactly when the same paths are bound in the same
  // order with the same watermarks, authority generations and legality. Nothing
  // else of a binding is compared.
  lemma DriftIsExact(cs: seq<Candidate>, d: Dependencies)
    requires Complete(d)
    ensures Drift(cs, d).None? <==> SameDependencies(cs, d)
  {
    if |cs| == |d.paths| {
      DriftFromIsExact(cs, d, 0);
    }
  }

  lemma {:induction false} SamePositions(a: seq<Candidate>, b: seq<Candidate>, path: Id)
    requires |a| == |b| && forall i :: 0 <= i < |a| ==> PathOf(a[i]) == PathOf(b[i])
    ensures Position(a, path) == Position(b, path)
  {
    if a != [] {
      SamePositions(a[1..], b[1..], path);
    }
  }

  // Candidates that pass the drift check against an earlier state's record.
  ghost predicate Unmoved(s: State, t: State, p: Id, path: Id)
  {
    match CandidateOf(s, p, path)
    case None => CandidateOf(t, p, path).None?
    case Some(c) =>
      && CandidateOf(t, p, path).Some?
      && CandidateOf(t, p, path).value.watermark == c.watermark
      && !AuthorityMoved(c.binding.authority, CandidateOf(t, p, path).value.binding.authority)
  }

  lemma NoDriftUnmoved(s: State, t: State, p: Id, path: Id)
    requires p in s.policies && p in t.policies
    requires Drift(t.policies[p].candidates, DependenciesOf(s, p)).None?
    ensures Unmoved(s, t, p, path)
  {
    var a, b, d := s.policies[p].candidates, t.policies[p].candidates, DependenciesOf(s, p);
    DriftIsExact(b, d);
    SamePositions(a, b, path);
  }

  lemma SameModulo(x: nat, n: nat)
    requires x < TWO_64 && (x + n) % TWO_64 == x
    ensures n % TWO_64 == 0
  {
    var q := (x + n) / TWO_64;
    assert n == q * TWO_64;
    ModShift(0, q);
  }

  // ------------------------------------------------------------------------
  // The fence
  // ------------------------------------------------------------------------

  ghost predicate IndexedAt(s: State, p: Id)
  {
    p in s.policies && forall path :: CandidateOf(s, p, path).Some? ==> Reaches(s, p, path)
  }

  // A ticket begun in s, and the event that presents it later.
  ghost predicate Presents(s: State, p: Id, ctx: Context, begun: Ticks, ticket: Ticket, e: Event)
  {
    e.op.Commit? && e.op.ticket == ticket && ticket == Begin(s, p, ctx, ticket.decision, begun)
  }

  // The state still looks, to everything a commit compares, as it did at the
  // beginning of the evaluation.
  ghost predicate StillCurrent(s: State, t: State, p: Id)
  {
    && p in s.policies && p in t.policies
    && t.epoch == s.epoch && t.evidenceGeneration == s.evidenceGeneration && GenerationOf(t, p) == GenerationOf(s, p)
    && Drift(t.policies[p].candidates, DependenciesOf(s, p)).None?
  }

  ghost predicate TargetLegal(t: State, p: Id, target: Id)
  {
    CandidateOf(t, p, target).Some? && CandidateOf(t, p, target).value.binding.authority.legal
  }

  lemma PresentedFacts(s: State, p: Id, ctx: Context, begun: Ticks, ticket: Ticket, t: State, e: Event, limits: Limits)
    requires Presents(s, p, ctx, begun, ticket, e) && Commits(t, e, p, limits)
    ensures StillCurrent(s, t, p) && TargetLegal(t, p, ticket.verdict.target)
  {
    hide Decide, InputsOf, CommitRefusal, VerifyRefusal, CallerRefusal, BeginRefusal, Drift, DependenciesOf;
    CommitAccepted(t, ticket, e.op.context, e.op.fingerprint);
    CommitNeedsPolicy(t, ticket, e.op.context, e.op.fingerprint);
    VerifiedHasTarget(t, t.policies[p], ticket.verdict, e.now, limits);
    BeginFacts(s, p, ctx, ticket.decision, begun);
  }

  lemma CommitAccepted(s: State, t: Ticket, ctx: Context, fingerprint: Id)
    ensures CommitRefusal(s, t, ctx, fingerprint).None? ==> t.verdict.lifecycle != REJECTED
  {
    hide CallerRefusal, DependencyRefusal, Replay;
  }

  lemma BeginFacts(s: State, p: Id, ctx: Context, decision: Id, begun: Ticks)
    ensures var t := Begin(s, p, ctx, decision, begun);
            t.verdict.lifecycle != REJECTED ==>
              && p in s.policies && BeginRefusal(s, p, ctx).None?
              && t == Ticket(DependenciesOf(s, p), decision, Decide(InputsOf(s, p, begun)))
              && t.dependencies.policy == p && t.dependencies.epoch == s.epoch
              && t.dependencies.evidenceGeneration == s.evidenceGeneration
              && t.dependencies.policyGeneration == s.policies[p].policy.generation
  {
    hide Decide, InputsOf, TargetRefusal;
  }

  // A watermark that moved this often is back where it was.
  predicate WholeTurns(n: nat) { n % TWO_64 == 0 }

  lemma FencedPath(s: State, es: seq<Event>, p: Id, path: Id, limits: Limits)
    requires Reaches(s, p, path) && Undisturbed(s, es, p, limits) && StillCurrent(s, Exec(s, es, limits), p)
    ensures WholeTurns(TotalTouches(s, es, path, limits))
  {
    hide After, Undisturbed, TotalTouches, Exec, Drift, DependenciesOf, EverRebinds;
    NoDriftUnmoved(s, Exec(s, es, limits), p, path);
    RunTracks(s, es, p, path, limits);
    SameModulo(MarkOf(s, p, path), TotalTouches(s, es, path, limits));
  }

  // If a ticket begun in one state commits after any run of steps, then in
  // between no epoch was opened, no evidence batch was accepted and the policy
  // was not updated; every candidate path was invalidated a multiple of 2^64
  // times; and the target is still a candidate, legal at exactly the authority
  // generation the evaluation saw.
  lemma CommitIsFenced(
    s: State, es: seq<Event>, p: Id, ctx: Context, begun: Ticks, ticket: Ticket, e: Event, limits: Limits)
    requires Keyed(s) && IndexedAt(s, p)
    requires Presents(s, p, ctx, begun, ticket, e) && Commits(Exec(s, es, limits), e, p, limits)
    ensures Undisturbed(s, es, p, limits)
    ensures forall path :: CandidateOf(s, p, path).Some? ==> WholeTurns(TotalTouches(s, es, path, limits))
    ensures TargetHeld(s, Exec(s, es, limits), p, ticket.verdict.target)
  {
    hide After, Commits, Presents, Undisturbed, TotalTouches, Exec, CandidateOf, Drift, DependenciesOf, Reaches;
    var t := Exec(s, es, limits);
    PresentedFacts(s, p, ctx, begun, ticket, t, e, limits);
    RunCounters(s, es, p, limits);
    forall path | CandidateOf(s, p, path).Some?
      ensures WholeTurns(TotalTouches(s, es, path, limits))
    {
      FencedPath(s, es, p, path, limits);
    }
    NoDriftUnmoved(s, t, p, ticket.verdict.target);
  }

  ghost predicate TargetHeld(s: State, t: State, p: Id, target: Id)
  {
    && CandidateOf(s, p, target).Some? && CandidateOf(t, p, target).Some?
    && CandidateOf(t, p, target).value.binding.authority.legal
    && CandidateOf(t, p, target).value.binding.authority.generation
       == CandidateOf(s, p, target).value.binding.authority.generation
    && CandidateOf(s, p, target).value.binding.authority.legal
  }

  // Below 2^64 invalidations of a path the fence is complete for it: at the
  // commit its candidate is exactly what the evaluation saw, unless it was
  // re-declared, re-weighted or had its hard-failure signal cleared.
  lemma FencedCandidateUnchanged(
    s: State, es: seq<Event>, p: Id, ctx: Context, begun: Ticks, ticket: Ticket, e: Event, limits: Limits, path: Id)
    requires Keyed(s) && IndexedAt(s, p) && CandidateOf(s, p, path).Some?
    requires Presents(s, p, ctx, begun, ticket, e) && Commits(Exec(s, es, limits), e, p, limits)
    requires TotalTouches(s, es, path, limits) < TWO_64
    ensures TotalTouches(s, es, path, limits) == 0
    ensures !EverRebinds(s, es, p, path, limits) ==>
              CandidateOf(Exec(s, es, limits), p, path) == CandidateOf(s, p, path)
  {
    hide After, Commits, Presents, Undisturbed, TotalTouches, Exec, EverRebinds;
    CommitIsFenced(s, es, p, ctx, begun, ticket, e, limits);
    RunTracks(s, es, p, path, limits);
  }
}
