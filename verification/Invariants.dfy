// What every reachable state keeps: sorted and well-identified candidates,
// valid semantics and the rollback anchor.

module Invariants {
  import opened Base
  import opened Outcomes
  import opened Policy
  import opened Records
  import opened Evaluation
  import opened Indexing
  import opened Durable
  import opened Fabric
  import opened Runs
  import opened Fencing
  import opened Moves

  // A bound multipath set is the one the policy targets.
  ghost predicate SetMatches(target: Target, b: Binding)
  {
    target.multipath.Some? && b.multipath.Some? ==> b.multipath.value.set_ == target.multipath.value
  }

  ghost predicate BindingOk(target: Target, b: Binding)
  {
    ValidId(b.path) && SetMatches(target, b) && b.authority.generation != 0
  }

  ghost predicate BindingsOk(cs: seq<Candidate>, target: Target)
  {
    Sorted(cs) && forall i :: 0 <= i < |cs| ==> BindingOk(target, cs[i].binding)
  }

  ghost predicate PolicyOk(r: PolicyRecord)
  {
    AnchorOk(r) && BindingsOk(r.candidates, r.policy.semantics.target) && r.policy.semantics.Valid()
  }

  ghost predicate StateOk(s: State)
  {
    Keyed(s) && forall p :: p in s.policies ==> PolicyOk(s.policies[p])
  }

  // ------------------------------------------------------------------------
  // Bindings
  // ------------------------------------------------------------------------

  lemma RewriteOk(cs: seq<Candidate>, c: Candidate, target: Target)
    requires BindingsOk(cs, target) && BindingOk(target, c.binding) && Position(cs, PathOf(c)) < |cs|
    ensures BindingsOk(cs[Position(cs, PathOf(c)) := c], target)
  {
  }

  lemma InsertOk(cs: seq<Candidate>, c: Candidate, target: Target)
    requires BindingsOk(cs, target) && BindingOk(target, c.binding) && Find(cs, PathOf(c)).None?
    ensures BindingsOk(Inserted(cs, c), target)
  {
    InsertedSorted(cs, c);
    InsertedPaths(cs, c);
    forall i | 0 <= i < |Inserted(cs, c)|
      ensures BindingOk(target, Inserted(cs, c)[i].binding)
    {
      assert Inserted(cs, c)[i] in multiset(cs) + multiset{c};
    }
  }

  lemma ReboundOk(b: Binding, n: Notification, target: Target)
    requires BindingOk(target, b) && BindingOk(target, n.binding) && b.path == n.binding.path
    ensures BindingOk(target, Rebound(b, n)) && Rebound(b, n).path == b.path
  {
  }

  lemma AcceptedNoteOk(s: State, n: Notification, ctx: Context)
    ensures NoteRefusal(s, n, ctx).None? ==>
      n.policy in s.policies && BindingOk(s.policies[n.policy].policy.semantics.target, n.binding)
  {
    hide TargetRefusal;
  }

  ghost predicate BoundOk(s: State, p: Id)
  {
    p in s.policies ==> BindingsOk(s.policies[p].candidates, s.policies[p].policy.semantics.target)
  }

  lemma BoundKeeps(s: State, n: Notification, limits: Limits, p: Id)
    requires n.policy in s.policies && BoundOk(s, p)
    requires BindingOk(s.policies[n.policy].policy.semantics.target, n.binding)
    ensures BoundOk(Bound(s, n, limits), p)
  {
    hide Rebound, Inserted, IndexedWith, Position;
    var r := s.policies[n.policy];
    var target := r.policy.semantics.target;
    if n.policy == p {
      var found := Find(r.candidates, n.binding.path);
      if found.Some? {
        ReboundOk(found.value.binding, n, target);
        RewriteOk(r.candidates, found.value.(binding := Rebound(found.value.binding, n)), target);
      } else {
        InsertOk(r.candidates, Candidate(n.binding, 0), target);
      }
    }
  }

  lemma InvalidatedKeeps(s: State, path: Id, p: Id)
    requires BoundOk(s, p)
    ensures BoundOk(Invalidated(s, path), p)
  {
    hide Position;
    if p in s.policies {
      var r := s.policies[p];
      var found := Find(r.candidates, path);
      if found.Some? {
        RewriteOk(r.candidates, found.value.(watermark := WrapAdd(found.value.watermark, 1)),
                  r.policy.semantics.target);
      }
    }
  }

  lemma {:induction false} NotesKeep(s: State, ns: seq<Notification>, ctx: Context, limits: Limits, p: Id)
    requires BoundOk(s, p)
    ensures BoundOk(NotesStep(s, ns, ctx, limits).state, p)
    decreases |ns|
  {
    hide NoteRefusal, EventRefusal, Bound, Invalidated, BoundOk;
    if ns != [] {
      var first := NoteStep(s, ns[0], ctx, limits);
      AcceptedNoteOk(s, ns[0], ctx);
      if NoteRefusal(s, ns[0], ctx).None? {
        BoundKeeps(s, ns[0], limits, p);
        InvalidatedKeeps(Bound(s, ns[0], limits), ns[0].binding.path, p);
      }
      if first.outcome == POLICY_UPDATED {
        NotesKeep(first.state, ns[1..], ctx, limits, p);
      }
    }
  }

  lemma UpstreamKeeps(s: State, ns: seq<Notification>, ctx: Context, fingerprint: Id, limits: Limits, p: Id)
    requires BoundOk(s, p)
    ensures BoundOk(UpstreamStep(s, ns, ctx, fingerprint, limits).state, p)
  {
    hide NotesStep, Logged, UpstreamRefusal;
    NotesKeep(s, ns, ctx, limits, p);
  }

  lemma UpdatedKeeps(r: PolicyRecord, q: UpdateRequest, epoch: u64, now: Ticks)
    requires PolicyOk(r) && Next(r.policy.generation).Some? && q.semantics.Valid()
    ensures PolicyOk(Updated(r, q, epoch, now))
  {
  }

  lemma CreatedRecord(s: State, q: CreateRequest, id: Id, now: Ticks, limits: Limits)
    ensures var t := CreateStep(s, q, id, now, limits).state;
            id in t.policies && id !in s.policies ==>
              t.policies[id] == NewRecord(NewPolicy(s, q, id, now)) && q.semantics.Valid()
  {
    hide IndexedWith, Logged, ScopeRefusal, Replay;
  }

  // Preference, anchor and semantics survive every change.
  lemma ChangeKeeps(s: State, e: Event, p: Id, t: State, limits: Limits)
    requires Becomes(s, e, p, t, limits) && PolicyOk(s.policies[p])
    ensures AnchorOk(t.policies[p]) && t.policies[p].policy.semantics.Valid()
    ensures !UpdatesPolicy(s, e, p, limits) ==> t.policies[p].policy.semantics == s.policies[p].policy.semantics
    ensures UpdatesPolicy(s, e, p, limits) || Restarts(s, e, limits) ==> PolicyOk(t.policies[p])
  {
    hide CommitsTicket, RollbackRefusal, RestoreRefusal, UpdateRefusal, RecoveryRefusal, BuildDurable, RestoredTiming,
         SavedTiming, CommittedBy, RolledBackBy, Updated;
    if Commits(s, e, p, limits) {
      CommittedMoves(s, e, p, limits, t.policies[p]);
      MoveTargetNamed(s, e, p, limits);
      MovedKeepsAnchor(s.policies[p], t.policies[p], MoveOf(s, e, p, limits).value, limits);
    } else if RollsBack(s, e, p) {
      RestoreHasTarget(s.policies[p]);
      RolledBackMoves(s, e, p, limits, t.policies[p]);
      MoveTargetNamed(s, e, p, limits);
      MovedKeepsAnchor(s.policies[p], t.policies[p], MoveOf(s, e, p, limits).value, limits);
    } else if UpdatesPolicy(s, e, p, limits) {
      UpdateNeedsPolicy(s, e.op.update, limits);
      UpdatedKeeps(s.policies[p], e.op.update, s.epoch, e.now);
    }
  }

  lemma StepKeepsPolicy(s: State, e: Event, p: Id, limits: Limits)
    requires StateOk(s) && p in s.policies
    ensures PolicyHolds(After(s, e, limits), p)
  {
    hide PolicyOk, CommitsTicket, RollbackRefusal, RestoreRefusal, UpdateRefusal, RecoveryRefusal, BuildDurable, Change,
         RegisterStep, FenceStep, AdvanceEpochStep, CreateStep, UpdateStep, TransitionStep, RevokeStep, UpstreamStep,
         PublishStep, CommitStep, RollbackStep, RestartStep, BindingsOk;
    var t := After(s, e, limits);
    Evolution(s, e, p, limits);
    BecomesKeeps(s, e, p, t, limits);
    ChangeKeeps(s, e, p, t, limits);
    OkParts(s.policies[p]);
    OkParts(t.policies[p]);
    if e.op.Upstream? {
      UpstreamKeeps(s, e.op.notes, e.op.context, e.op.fingerprint, limits, p);
    } else if !UpdatesPolicy(s, e, p, limits) && !Restarts(s, e, limits) {
      StepIsSteady(s, e, p, limits);
    }
  }

  ghost predicate PolicyHolds(t: State, p: Id) { p in t.policies && PolicyOk(t.policies[p]) }

  lemma OkParts(r: PolicyRecord)
    ensures PolicyOk(r) <==>
      AnchorOk(r) && BindingsOk(r.candidates, r.policy.semantics.target) && r.policy.semantics.Valid()
  {
  }

  // Every step keeps the invariant of every policy.
  lemma StepOk(s: State, e: Event, limits: Limits)
    requires StateOk(s)
    ensures StateOk(After(s, e, limits))
  {
    hide After, PolicyOk, CreateStep;
    var t := After(s, e, limits);
    KeyedStep(s, e, limits);
    StepKeys(s, e, limits);
    forall p | p in t.policies
      ensures PolicyOk(t.policies[p])
    {
      if p in s.policies {
        StepKeepsPolicy(s, e, p, limits);
      } else {
        NewPolicyOk(s, e, p, limits);
      }
    }
  }

  lemma NewPolicyOk(s: State, e: Event, p: Id, limits: Limits)
    requires StateOk(s) && p !in s.policies && p in After(s, e, limits).policies
    ensures PolicyHolds(After(s, e, limits), p)
  {
    hide RegisterStep, FenceStep, AdvanceEpochStep, CreateStep, UpdateStep, TransitionStep, RevokeStep, UpstreamStep,
         PublishStep, CommitStep, RollbackStep, RestartStep;
    StepKeys(s, e, limits);
    CreatedRecord(s, e.op.creation, p, e.now, limits);
  }

  lemma {:induction false} ExecOk(s: State, es: seq<Event>, limits: Limits)
    requires StateOk(s)
    ensures StateOk(Exec(s, es, limits))
    decreases |es|
  {
    hide After, StateOk;
    if es != [] {
      StepOk(s, es[0], limits);
      ExecOk(After(s, es[0], limits), es[1..], limits);
    }
  }

  // Each single notification keeps the invariant, also when the next one of
  // its batch is refused.
  lemma NoteKeepsOk(s: State, n: Notification, ctx: Context, limits: Limits)
    requires StateOk(s)
    ensures StateOk(NoteStep(s, n, ctx, limits).state)
  {
    hide NoteStep, PolicyOk;
    var t := NoteStep(s, n, ctx, limits).state;
    NoteMovesCandidates(s, n, ctx, limits, NO_ID);
    forall p | p in t.policies
      ensures t.policies[p].policy.id == p && PolicyOk(t.policies[p])
    {
      NoteMovesCandidates(s, n, ctx, limits, p);
      BoundFromOk(s, p);
      NoteKeepsBindings(s, n, ctx, limits, p);
      RebindingKeepsOk(s.policies[p], t.policies[p]);
    }
  }

  lemma BoundFromOk(s: State, p: Id)
    ensures StateOk(s) ==> BoundOk(s, p)
  {
    hide AnchorOk, BindingsOk;
  }

  lemma RebindingKeepsOk(r: PolicyRecord, r': PolicyRecord)
    requires PolicyOk(r) && SameButCandidates(r, r') && BindingsOk(r'.candidates, r'.policy.semantics.target)
    ensures PolicyOk(r')
  {
  }

  lemma NoteKeepsBindings(s: State, n: Notification, ctx: Context, limits: Limits, p: Id)
    requires BoundOk(s, p)
    ensures BoundOk(NoteStep(s, n, ctx, limits).state, p)
  {
    hide NoteRefusal, EventRefusal, Bound, Invalidated, BoundOk;
    AcceptedNoteOk(s, n, ctx);
    if NoteRefusal(s, n, ctx).None? {
      BoundKeeps(s, n, limits, p);
      InvalidatedKeeps(Bound(s, n, limits), n.binding.path, p);
    }
  }
}
