// What an upstream notification does to the candidates, told field by field
// (src/fabric_policy.cpp).

module Notices {
  import opened Base
  import opened Evidence
  import opened Outcomes
  import opened Policy
  import opened Records
  import opened Ranking
  import opened Evaluation
  import opened Indexing
  import opened Fabric
  import opened Runs
  import opened Fencing
  import opened Choice
  import opened Merit
  import Backing
  import Callers
  import Commitment
  import Invariants
  import Recovery
  import Verdicts

  // The events after which the watermark of the path moves.
  ghost predicate Moves(e: UpstreamEvent)
  {
    || e.AdvancePathAuthority? || e.InvalidatePath? || e.SetMembership? || e.InvalidateMultipathSet?
    || e.AdvanceRoute? || e.InvalidateRoute? || e.MarkUnavailable? || e.MarkAvailable? || e.HardFailureSignal?
  }

  // Each field of the binding after the event: what the events that write it
  // leave there, and what it was after every other event.
  ghost predicate Rewritten(b': Binding, b: Binding, n: Notification)
  {
    var e, given := n.event, n.binding;
    && b'.path == b.path
    && (if e.DeclareCandidate? || e.AdvancePathAuthority? then b'.authority == given.authority
        else if e.InvalidatePath? then
          && !b'.authority.legal && b'.authority.path == b.authority.path
          && (given.authority.generation != 0 ==> b'.authority.generation == given.authority.generation)
          && (given.authority.generation == 0 ==> b'.authority.generation == b.authority.generation)
        else b'.authority == b.authority)
    && (if e.DeclareCandidate? || e.SetMembership? then b'.multipath == given.multipath
        else if e.InvalidateMultipathSet? && b.multipath.Some? then
          && b'.multipath.Some? && !b'.multipath.value.current
          && b'.multipath.value.set_ == b.multipath.value.set_
          && b'.multipath.value.generation == b.multipath.value.generation
          && b'.multipath.value.members == b.multipath.value.members
        else b'.multipath == b.multipath)
    && (if e.DeclareCandidate? || e.AdvanceRoute? then b'.route == given.route
        else if e.InvalidateRoute? then
          && !b'.route.current && b'.route.route == b.route.route
          && b'.route.generation == b.route.generation && b'.route.site == b.route.site
        else b'.route == b.route)
    && (if e.DeclareCandidate? || e.AdvanceWeightPolicy? then b'.weighted == given.weighted
        else b'.weighted == b.weighted)
    && (if e.DeclareCandidate? then b'.pathClass == given.pathClass else b'.pathClass == b.pathClass)
    && (if e.MarkUnavailable? then !b'.available
        else if e.MarkAvailable? then b'.available
        else if e.DeclareCandidate? then b'.available == given.available
        else b'.available == b.available)
    && (if e.HardFailureSignal? then b'.hardFailure
        else if e.ClearHardFailureSignal? then !b'.hardFailure
        else if e.DeclareCandidate? then b'.hardFailure == given.hardFailure
        else b'.hardFailure == b.hardFailure)
  }

  lemma ReboundIsRewritten(b: Binding, n: Notification)
    requires b.path == n.binding.path
    ensures Rewritten(Rebound(b, n), b, n)
  {
  }

  // The watermark moves by one, around the end of its range, when the event moves
  // it and the path index lists the policy.
  ghost predicate Marked(c': Candidate, c: Candidate, moved: bool)
  {
    if !moved then c'.watermark == c.watermark
    else if c.watermark == 0xFFFF_FFFF_FFFF_FFFF then c'.watermark == 0
    else c'.watermark == c.watermark + 1
  }

  ghost predicate Reached(s: State, n: Notification, p: Id)
  {
    Moves(n.event) && n.binding.path in s.index.byPath && p in s.index.byPath[n.binding.path]
  }

  lemma InvalidatedFinds(s: State, at: Id, p: Id, path: Id)
    requires p in s.policies
    ensures var t := Invalidated(s, at);
            && p in t.policies
            && match CandidateOf(s, p, path)
               case None => CandidateOf(t, p, path).None?
               case Some(c) =>
                 CandidateOf(t, p, path)
                   == Some(if path == at && p in Get(s.index.byPath, at)
                           then c.(watermark := WrapAdd(c.watermark, 1)) else c)
  {
    hide Find, Position;
    BumpedFinds(s.policies[p], at, path);
  }

  lemma BoundFinds(s: State, n: Notification, limits: Limits, p: Id, path: Id)
    requires n.policy in s.policies && p in s.policies
    ensures var t := Bound(s, n, limits);
            && p in t.policies
            && CandidateOf(t, p, path) ==
                 (if p != n.policy || path != n.binding.path then CandidateOf(s, p, path)
                  else match CandidateOf(s, p, path)
                       case Some(c) => Some(c.(binding := Rebound(c.binding, n)))
                       case None => if n.event.DeclareCandidate? then Some(Candidate(n.binding, 0)) else None)
            && (Moves(n.event) ==> t.index == s.index)
  {
    hide Find, Position, Rebound, Inserted, IndexedWith, WithCandidate;
    var r := s.policies[n.policy];
    var found := Find(r.candidates, n.binding.path);
    if found.Some? {
      ReboundKeepsPath(found.value.binding, n);
      WithCandidateFinds(r, found.value.(binding := Rebound(found.value.binding, n)), path);
    } else {
      FindInserted(r.candidates, Candidate(n.binding, 0), path);
      FindsInserted(r.candidates, Candidate(n.binding, 0));
    }
  }

  lemma FindPrepended(c: Candidate, cs: seq<Candidate>, path: Id)
    ensures Find([c] + cs, path) == if PathOf(c) == path then Some(c) else Find(cs, path)
  {
    assert ([c] + cs)[1..] == cs;
  }

  lemma {:induction false} FindsInserted(cs: seq<Candidate>, c: Candidate)
    requires Find(cs, PathOf(c)).None?
    ensures Find(Inserted(cs, c), PathOf(c)) == Some(c)
  {
    hide Find, Less;
    if cs == [] || Less(PathOf(c), PathOf(cs[0])) {
      FindPrepended(c, cs, PathOf(c));
    } else {
      FindPrepended(cs[0], cs[1..], PathOf(c));
      assert cs == [cs[0]] + cs[1..];
      FindsInserted(cs[1..], c);
      FindPrepended(cs[0], Inserted(cs[1..], c), PathOf(c));
    }
  }

  // The candidate an accepted notification names, before and after: its fields
  // are rewritten as the event says, or it is declared with no watermark.
  lemma NoteIsExact(s: State, n: Notification, ctx: Context, limits: Limits)
    requires NoteApplies(s, n, ctx, limits)
    ensures var t := NoteStep(s, n, ctx, limits);
            && t.outcome == POLICY_UPDATED && n.policy in t.state.policies
            && match CandidateOf(s, n.policy, n.binding.path)
               case Some(c) =>
                 && CandidateOf(t.state, n.policy, n.binding.path).Some?
                 && var c' := CandidateOf(t.state, n.policy, n.binding.path).value;
                    Rewritten(c'.binding, c.binding, n) && Marked(c', c, Reached(s, n, n.policy))
               case None =>
                 CandidateOf(t.state, n.policy, n.binding.path)
                   == if n.event == DeclareCandidate then Some(Candidate(n.binding, 0)) else None
  {
    hide NoteRefusal, EventRefusal, Bound, Invalidated, Rebound, Rewritten, Find;
    var path, u := n.binding.path, Bound(s, n, limits);
    BoundFinds(s, n, limits, n.policy, path);
    InvalidatedFinds(u, path, n.policy, path);
    FoundPath(s, n.policy, path);
    if CandidateOf(s, n.policy, path).Some? {
      ReboundIsRewritten(CandidateOf(s, n.policy, path).value.binding, n);
    }
  }

  lemma FoundPath(s: State, p: Id, path: Id)
    ensures CandidateOf(s, p, path).Some? ==> PathOf(CandidateOf(s, p, path).value) == path
  {
  }

  // No binding of any other path or policy changes; the watermark moves wherever
  // the index lists the path.
  lemma NoteElsewhere(s: State, n: Notification, ctx: Context, limits: Limits, p: Id, path: Id)
    requires NoteApplies(s, n, ctx, limits) && p in s.policies && (p != n.policy || path != n.binding.path)
    ensures var t := NoteStep(s, n, ctx, limits).state;
            && p in t.policies
            && match CandidateOf(s, p, path)
               case None => CandidateOf(t, p, path).None?
               case Some(c) =>
                 && CandidateOf(t, p, path).Some?
                 && var c' := CandidateOf(t, p, path).value;
                    c'.binding == c.binding && Marked(c', c, path == n.binding.path && Reached(s, n, p))
  {
    hide NoteRefusal, EventRefusal, Bound, Invalidated, Rebound, Find;
    BoundFinds(s, n, limits, p, path);
    InvalidatedFinds(Bound(s, n, limits), n.binding.path, p, path);
  }

  // ------------------------------------------------------------------------
  // A batch
  // ------------------------------------------------------------------------

  // The state after the first k notifications, each on its own.
  ghost function AfterNotes(s: State, ns: seq<Notification>, ctx: Context, limits: Limits, k: nat): State
    requires k <= |ns|
  {
    if k == 0 then s else NoteStep(AfterNotes(s, ns, ctx, limits, k - 1), ns[k - 1], ctx, limits).state
  }

  // The notification at k is accepted in its turn.
  ghost predicate AcceptedAt(s: State, ns: seq<Notification>, ctx: Context, limits: Limits, k: nat)
    requires k < |ns|
  {
    NoteStep(AfterNotes(s, ns, ctx, limits, k), ns[k], ctx, limits).outcome == POLICY_UPDATED
  }

  // The first k are accepted in turn and stay; the next one, if any, is refused
  // with the answer of the batch.
  ghost predicate StopsAt(s: State, ns: seq<Notification>, ctx: Context, limits: Limits, t: Step, k: nat)
  {
    && k <= |ns| && (forall j :: 0 <= j < k ==> AcceptedAt(s, ns, ctx, limits, j))
    && t.state == AfterNotes(s, ns, ctx, limits, k)
    && (if k == |ns| then t.outcome == POLICY_UPDATED
        else
          && t.outcome != POLICY_UPDATED
          && t.outcome == NoteStep(AfterNotes(s, ns, ctx, limits, k), ns[k], ctx, limits).outcome)
  }

  lemma {:induction false} AfterNotesShift(
    s: State, ns: seq<Notification>, ctx: Context, limits: Limits, k: nat)
    requires 0 < |ns| && k <= |ns| - 1
    ensures AfterNotes(s, ns, ctx, limits, k + 1)
         == AfterNotes(NoteStep(s, ns[0], ctx, limits).state, ns[1..], ctx, limits, k)
  {
    hide NoteStep;
    if k > 0 {
      AfterNotesShift(s, ns, ctx, limits, k - 1);
    } else {
      assert AfterNotes(s, ns, ctx, limits, 0) == s;
    }
  }

  lemma RefusedNoteChangesNothing(s: State, n: Notification, ctx: Context, limits: Limits)
    ensures NoteStep(s, n, ctx, limits).outcome != POLICY_UPDATED ==> NoteStep(s, n, ctx, limits).state == s
  {
    hide NoteRefusal, EventRefusal, Bound, Invalidated;
    NoteNeedsPolicy(s, n, ctx);
  }

  // The notifications of a batch are applied in turn; those before the first
  // refused one stay, the refused one and the rest do nothing.
  lemma {:induction false} NotesStopAtRefusal(s: State, ns: seq<Notification>, ctx: Context, limits: Limits)
    ensures exists k: nat :: StopsAt(s, ns, ctx, limits, NotesStep(s, ns, ctx, limits), k)
    decreases |ns|
  {
    hide NoteStep;
    if ns == [] {
      assert StopsAt(s, ns, ctx, limits, NotesStep(s, ns, ctx, limits), 0);
    } else {
      var first := NoteStep(s, ns[0], ctx, limits);
      RefusedNoteChangesNothing(s, ns[0], ctx, limits);
      assert AfterNotes(s, ns, ctx, limits, 0) == s;
      if first.outcome != POLICY_UPDATED {
        assert StopsAt(s, ns, ctx, limits, NotesStep(s, ns, ctx, limits), 0);
      } else {
        NotesStopAtRefusal(first.state, ns[1..], ctx, limits);
        var k: nat :| StopsAt(first.state, ns[1..], ctx, limits, NotesStep(first.state, ns[1..], ctx, limits), k);
        StopShifts(s, ns, ctx, limits, NotesStep(s, ns, ctx, limits), k);
      }
    }
  }

  lemma StopShifts(s: State, ns: seq<Notification>, ctx: Context, limits: Limits, t: Step, k: nat)
    requires ns != [] && NoteStep(s, ns[0], ctx, limits).outcome == POLICY_UPDATED
    requires StopsAt(NoteStep(s, ns[0], ctx, limits).state, ns[1..], ctx, limits, t, k)
    ensures StopsAt(s, ns, ctx, limits, t, k + 1)
  {
    hide NoteStep, AfterNotes;
    AfterNotesShift(s, ns, ctx, limits, k);
    forall j | 0 <= j < k + 1
      ensures AcceptedAt(s, ns, ctx, limits, j)
    {
      if j == 0 {
        NoneApplied(s, ns, ctx, limits);
      } else {
        AfterNotesShift(s, ns, ctx, limits, j - 1);
        assert AcceptedAt(NoteStep(s, ns[0], ctx, limits).state, ns[1..], ctx, limits, j - 1);
      }
    }
  }

  lemma NoneApplied(s: State, ns: seq<Notification>, ctx: Context, limits: Limits)
    ensures AfterNotes(s, ns, ctx, limits, 0) == s
  {
  }

  // A batch is taken up when it is not empty, within its bound and under a new
  // attempt; the attempt is remembered when all of it was accepted.
  lemma UpstreamIsExact(s: State, ns: seq<Notification>, ctx: Context, fingerprint: Id, limits: Limits)
    ensures var t, applied := UpstreamStep(s, ns, ctx, fingerprint, limits), NotesStep(s, ns, ctx, limits);
            if 0 < |ns| <= limits.maxBatch && Commitment.Unused(s, ctx.attempt) then
              && t.outcome == applied.outcome && t.state.policies == applied.state.policies
              && t.state.index == applied.state.index
              && (t.outcome != POLICY_UPDATED ==> t.state == applied.state)
            else t.state == s && t.outcome != POLICY_UPDATED
  {
    hide NotesStep, Logged, Replay, Commitment.Unused;
    Commitment.UnusedIsExact(s, ctx.attempt, fingerprint);
  }

  // ------------------------------------------------------------------------
  // Which notifications are accepted
  // ------------------------------------------------------------------------

  ghost predicate Expected(n: Notification, c: Candidate)
  {
    n.expectedPrevious.Some? ==> n.expectedPrevious.value == c.binding.authority.generation
  }

  // A first declaration needs room and a legal path, a repeated one and an
  // authority step the expected generation, and the step a greater one; the
  // events that store a binding need a declared path.
  lemma EventIsExact(cs: seq<Candidate>, n: Notification, limits: Limits)
    ensures EventRefusal(cs, n, limits).None? <==>
      match Find(cs, n.binding.path)
      case None =>
        && !n.event.AdvancePathAuthority? && !n.event.SetMembership? && !n.event.AdvanceRoute?
        && !n.event.AdvanceWeightPolicy?
        && (n.event.DeclareCandidate? ==>
              && n.binding.authority.legal
              && |cs| < limits.maxCandidates && |cs| < limits.maxTotalCandidates)
      case Some(c) =>
        && (n.event.DeclareCandidate? || n.event.AdvancePathAuthority? ==> Expected(n, c))
        && (n.event.AdvancePathAuthority? ==> n.binding.authority.generation > c.binding.authority.generation)
  {
    hide Find;
  }

  // The notified binding must be the policy's: its target, its scope, its set.
  ghost predicate Concerns(p: AdaptivePolicy, b: Binding)
  {
    && ValidId(b.path) && b.authority.WellFormed() && b.route.WellFormed()
    && b.route.route == p.semantics.target.route
    && (p.semantics.target.multipath.Some? && b.multipath.Some? ==>
          b.multipath.value.set_ == p.semantics.target.multipath.value)
    && (p.scope.site.Some? ==> b.route.site == p.scope.site.value)
    && (p.scope.routes == [] || b.route.route in p.scope.routes)
    && (ValidId(p.scope.pathClass) ==> b.pathClass == p.scope.pathClass)
  }

  lemma NoteConcerns(s: State, n: Notification, ctx: Context)
    ensures NoteRefusal(s, n, ctx).None? <==>
      && ValidId(n.policy) && Callers.GovernsPolicy(s, ctx, n.policy)
      && !s.policies[n.policy].policy.lifecycle.Terminal()
      && Concerns(s.policies[n.policy].policy, n.binding)
      && (n.publisher == NO_ID || n.publisher == ctx.publisher) && (n.boot == NO_ID || n.boot == ctx.boot)
      && (n.epoch == 0 || n.epoch == s.epoch)
  {
    hide TargetRefusal, Callers.Governs;
    if n.policy in s.policies {
      Callers.CallerIsExact(s, ctx, s.policies[n.policy].policy.semantics.target);
    }
  }

  // ------------------------------------------------------------------------
  // Withdrawal
  // ------------------------------------------------------------------------

  // The events that withdraw a path from a policy.
  ghost predicate Withdraws(e: UpstreamEvent, target: Target)
  {
    e.MarkUnavailable? || e.InvalidateRoute? || e.InvalidatePath?
    || (e.InvalidateMultipathSet? && target.multipath.Some?)
  }

  lemma WithdrawnIsUnlawful(b': Binding, b: Binding, n: Notification, target: Target)
    requires Rewritten(b', b, n) && Withdraws(n.event, target)
    ensures BindingRefusal(target, b').Some?
  {
    LawfulIsExact(target, b');
  }

  lemma RefusedIsIneligible(sem: Semantics, c: Candidate, evidence: Snapshot, now: Ticks)
    requires BindingRefusal(sem.target, c.binding).Some?
    ensures !Judge(sem, c, evidence, now).eligible
  {
  }

  // A withdrawn path is not eligible, whatever the evidence says and whatever the
  // clock reads, until another notification changes it.
  lemma WithdrawnIsIneligible(
    s: State, n: Notification, ctx: Context, limits: Limits, evidence: Snapshot, now: Ticks)
    requires NoteApplies(s, n, ctx, limits) && CandidateOf(s, n.policy, n.binding.path).Some?
    requires Withdraws(n.event, s.policies[n.policy].policy.semantics.target)
    ensures var t := NoteStep(s, n, ctx, limits).state;
            && n.policy in t.policies && CandidateOf(t, n.policy, n.binding.path).Some?
            && t.policies[n.policy].policy.semantics == s.policies[n.policy].policy.semantics
            && !Judge(t.policies[n.policy].policy.semantics, CandidateOf(t, n.policy, n.binding.path).value, evidence,
                      now).eligible
  {
    hide NoteStep, NoteRefusal, EventRefusal, BindingRefusal, Judge, Rewritten, Find;
    NoteIsExact(s, n, ctx, limits);
    NoteMovesCandidates(s, n, ctx, limits, n.policy);
    var t := NoteStep(s, n, ctx, limits).state;
    var c' := CandidateOf(t, n.policy, n.binding.path).value;
    var sem := s.policies[n.policy].policy.semantics;
    WithdrawnIsUnlawful(c'.binding, CandidateOf(s, n.policy, n.binding.path).value.binding, n, sem.target);
    RefusedIsIneligible(sem, c', evidence, now);
  }

  // So no evaluation of that state chooses it.
  lemma WithdrawnIsNotChosen(
    s: State, n: Notification, ctx: Context, limits: Limits, now: Ticks)
    requires NoteApplies(s, n, ctx, limits) && CandidateOf(s, n.policy, n.binding.path).Some?
    requires Withdraws(n.event, s.policies[n.policy].policy.semantics.target)
    requires Invariants.StateOk(s)
    ensures var t := NoteStep(s, n, ctx, limits).state;
            && n.policy in t.policies
            && var v := Decide(InputsOf(t, n.policy, now));
               v.lifecycle == ELIGIBLE ==> v.target != n.binding.path
  {
    hide NoteStep, NoteRefusal, EventRefusal, Judge, Decide, Captured, Find, IsBest,
         Invariants.PolicyOk;
    var t := NoteStep(s, n, ctx, limits).state;
    Invariants.NoteKeepsOk(s, n, ctx, limits);
    NoteMovesCandidates(s, n, ctx, limits, n.policy);
    var i := InputsOf(t, n.policy, now);
    WithdrawnIsIneligible(s, n, ctx, limits, i.evidence, now);
    Recovery.SnapshotWellFiled(t, n.policy);
    if Decide(i).lifecycle == ELIGIBLE {
      TargetIsBest(i);
      var c :| IsBest(i, c) && PathOf(c) == Decide(i).target;
      Verdicts.BestIsAccepted(i, c);
      Backing.FoundDistinct(i.candidates, c);
    }
  }
}
