// What commit fencing does not see, exactly, and what can be committed because
// of it (src/fabric_policy.cpp, src/fabric_evaluate.cpp).

module Escapes {
  import opened Base
  import opened Outcomes
  import opened Policy
  import opened Records
  import opened Evaluation
  import opened Indexing
  import opened Fabric
  import opened Runs
  import opened Fencing

  // ------------------------------------------------------------------------
  // What the fence does not see
  // ------------------------------------------------------------------------

  predicate RepeatsAuthority(c: Candidate, b: Binding) { !AuthorityMoved(c.binding.authority, b.authority) }

  // The notification leaves the record of the policy as the drift check compares
  // it: no new candidate, no watermark that moves, no authority that moves.
  predicate EscapesDrift(s: State, n: Notification, p: Id)
  {
    match CandidateOf(s, p, n.binding.path)
    case None => !(n.policy == p && n.event.DeclareCandidate?)
    case Some(c) =>
      && !(Invalidates(n.event) && p in Get(s.index.byPath, n.binding.path))
      && (n.policy == p ==> RepeatsAuthority(c, Rebound(c.binding, n)))
  }

  // On an indexed candidate these are a re-declaration that repeats the authority
  // generation and legality, a change of the weight policy, and the end of a
  // hard-failure signal.
  predicate EscapingEvent(c: Candidate, n: Notification)
  {
    n.event.AdvanceWeightPolicy? || n.event.ClearHardFailureSignal?
    || (n.event.DeclareCandidate? && RepeatsAuthority(c, n.binding))
  }

  lemma SameAsRecorded(s: State, t: State, p: Id)
    requires p in s.policies && p in t.policies
    ensures Drift(t.policies[p].candidates, DependenciesOf(s, p)).None? <==>
              SameMarks(s.policies[p].candidates, t.policies[p].candidates)
  {
    DriftIsExact(t.policies[p].candidates, DependenciesOf(s, p));
  }

  // Position by position the same path, watermark, authority generation and
  // legality.
  ghost predicate SameMarks(a: seq<Candidate>, b: seq<Candidate>)
  {
    |a| == |b| && forall i :: 0 <= i < |b| ==> SameMark(a[i], b[i])
  }

  predicate SameMark(a: Candidate, b: Candidate)
  {
    PathOf(a) == PathOf(b) && a.watermark == b.watermark && RepeatsAuthority(a, b.binding)
  }

  lemma ReplacedMarks(cs: seq<Candidate>, i: nat, c: Candidate)
    requires i < |cs|
    ensures SameMarks(cs, cs[i := c]) <==> SameMark(cs[i], c)
  {
    assert cs[i := c][i] == c;
  }

  // The candidates after the binding and after the watermark changed.
  function Rebinding(cs: seq<Candidate>, n: Notification): seq<Candidate>
  {
    var i := Position(cs, n.binding.path);
    if i < |cs| then cs[i := cs[i].(binding := Rebound(cs[i].binding, n))]
    else if n.event.DeclareCandidate? then Inserted(cs, Candidate(n.binding, 0))
    else cs
  }

  function Bumping(cs: seq<Candidate>, path: Id): seq<Candidate>
  {
    var i := Position(cs, path);
    if i < |cs| then cs[i := cs[i].(watermark := WrapAdd(cs[i].watermark, 1))] else cs
  }

  function NotedCandidates(cs: seq<Candidate>, n: Notification, own: bool, reached: bool): seq<Candidate>
  {
    var rebound := if own then Rebinding(cs, n) else cs;
    if Invalidates(n.event) && reached then Bumping(rebound, n.binding.path) else rebound
  }

  lemma NotedIs(s: State, n: Notification, ctx: Context, limits: Limits, p: Id)
    requires NoteApplies(s, n, ctx, limits) && p in s.policies
    ensures var t := NoteStep(s, n, ctx, limits).state;
            p in t.policies
            && t.policies[p].candidates
               == NotedCandidates(s.policies[p].candidates, n, n.policy == p, p in Get(s.index.byPath, n.binding.path))
  {
    hide NoteRefusal, EventRefusal, Bound, Invalidated, Rebinding, Bumping;
    BindingIs(s, n, limits, p);
    InvalidatingIs(Bound(s, n, limits), n.binding.path, p);
  }

  lemma BindingIs(s: State, n: Notification, limits: Limits, p: Id)
    requires n.policy in s.policies && p in s.policies
    ensures var t := Bound(s, n, limits);
            && p in t.policies && (Invalidates(n.event) ==> t.index == s.index)
            && t.policies[p].candidates
               == if n.policy == p then Rebinding(s.policies[p].candidates, n) else s.policies[p].candidates
  {
    hide Rebound, Inserted, IndexedWith;
  }

  lemma InvalidatingIs(s: State, path: Id, p: Id)
    requires p in s.policies
    ensures p in Invalidated(s, path).policies
    ensures Invalidated(s, path).policies[p].candidates
         == if p in Get(s.index.byPath, path) then Bumping(s.policies[p].candidates, path) else s.policies[p].candidates
  {
  }

  lemma NotedMarks(cs: seq<Candidate>, n: Notification, own: bool, reached: bool)
    ensures SameMarks(cs, NotedCandidates(cs, n, own, reached)) <==>
              match Find(cs, n.binding.path)
              case None => !(own && n.event.DeclareCandidate?)
              case Some(c) => !(Invalidates(n.event) && reached) && (own ==> RepeatsAuthority(c, Rebound(c.binding, n)))
  {
    hide Rebound, SameMarks, Inserted;
    SameMarksSelf(cs);
    var i := Position(cs, n.binding.path);
    if i < |cs| {
      var c := cs[i];
      var c' := if own then c.(binding := Rebound(c.binding, n)) else c;
      ReboundKeepsPath(c.binding, n);
      ReplacedMarks(cs, i, c');
      SamePathsSamePosition(cs, cs[i := c'], n.binding.path);
      var c'' := c'.(watermark := WrapAdd(c'.watermark, 1));
      assert cs[i := c'][i := c''] == cs[i := c''] && cs[i := c] == cs;
      ReplacedMarks(cs, i, c'');
    } else {
      InsertedPaths(cs, Candidate(n.binding, 0));
      DifferentLength(cs, Inserted(cs, Candidate(n.binding, 0)));
    }
  }

  lemma NoteMarks(s: State, n: Notification, ctx: Context, limits: Limits, p: Id)
    requires NoteApplies(s, n, ctx, limits) && p in s.policies
    ensures var t := NoteStep(s, n, ctx, limits).state;
            p in t.policies
            && (EscapesDrift(s, n, p) <==> SameMarks(s.policies[p].candidates, t.policies[p].candidates))
  {
    hide NoteStep, NoteRefusal, EventRefusal, SameMarks, NotedCandidates;
    NotedIs(s, n, ctx, limits, p);
    NotedMarks(s.policies[p].candidates, n, n.policy == p, p in Get(s.index.byPath, n.binding.path));
  }

  lemma SameMarksSelf(cs: seq<Candidate>)
    ensures SameMarks(cs, cs)
  {
  }

  lemma DifferentLength(a: seq<Candidate>, b: seq<Candidate>)
    ensures |a| != |b| ==> !SameMarks(a, b)
  {
  }

  lemma NoteGeneration(s: State, n: Notification, ctx: Context, limits: Limits, p: Id)
    requires NoteApplies(s, n, ctx, limits)
    ensures GenerationOf(NoteStep(s, n, ctx, limits).state, p) == GenerationOf(s, p)
  {
    hide NoteRefusal, EventRefusal, Inserted, IndexedWith, Rebound, Get;
  }

  // An applied notification goes unnoticed by the commits of evaluations begun
  // before it exactly when it escapes the drift check; for an indexed candidate
  // of the policy it names, exactly when it is one of three events.
  lemma NoteIsFenced(s: State, n: Notification, ctx: Context, limits: Limits, p: Id)
    requires NoteApplies(s, n, ctx, limits) && p in s.policies
    ensures StillCurrent(s, NoteStep(s, n, ctx, limits).state, p) <==> EscapesDrift(s, n, p)
    ensures n.policy == p && Reaches(s, p, n.binding.path) ==>
      (EscapesDrift(s, n, p) <==> EscapingEvent(CandidateOf(s, p, n.binding.path).value, n))
  {
    hide NoteStep, Drift, DependenciesOf, SameMarks;
    NoteMarks(s, n, ctx, limits, p);
    NoteCounters(s, n, ctx, limits);
    NoteGeneration(s, n, ctx, limits, p);
    SameAsRecorded(s, NoteStep(s, n, ctx, limits).state, p);
  }

  // ------------------------------------------------------------------------
  // A commit the fence lets through
  // ------------------------------------------------------------------------

  ghost function Redeclared(s: State, n: Notification): State
    requires CandidateOf(s, n.policy, n.binding.path).Some?
  {
    var r := s.policies[n.policy];
    var c := Find(r.candidates, n.binding.path).value;
    s.(policies := s.policies[n.policy := WithCandidate(r, n.binding.path, c.(binding := n.binding))])
  }

  lemma RedeclaringStep(s: State, n: Notification, ctx: Context, fingerprint: Id, limits: Limits)
    requires UpstreamRefusal(s, [n], ctx, fingerprint, limits).None? && NoteApplies(s, n, ctx, limits)
    requires n.event.DeclareCandidate? && CandidateOf(s, n.policy, n.binding.path).Some?
    ensures UpstreamStep(s, [n], ctx, fingerprint, limits).state
         == Recorded(Redeclared(s, n), ctx.attempt, fingerprint, POLICY_UPDATED, limits)
  {
    hide NoteRefusal, EventRefusal, UpstreamRefusal, Recorded, WithCandidate;
    var first := NoteStep(s, n, ctx, limits);
    assert first == Step(Redeclared(s, n), POLICY_UPDATED);
    assert [n][1..] == [];
    assert NotesStep(s, [n], ctx, limits) == NotesStep(first.state, [], ctx, limits);
  }

  lemma RecordedKeepsCommit(
    s: State, attempt: Id, request: Id, ticket: Ticket, ctx: Context, fingerprint: Id, now: Ticks, limits: Limits)
    requires attempt != ctx.attempt && Replay(s, ctx.attempt, fingerprint).None?
    ensures CommitsTicket(Recorded(s, attempt, request, POLICY_UPDATED, limits), ticket, ctx, fingerprint, now, limits)
            <==> CommitsTicket(s, ticket, ctx, fingerprint, now, limits)
  {
    hide CommitRefusal, VerifyRefusal, Pending, Logged, Replay;
    var t := Recorded(s, attempt, request, POLICY_UPDATED, limits);
    NotYetRecorded(s, attempt, request, ctx.attempt, fingerprint, limits);
    SamePending(s, t, now);
    CommitSees(s, t, ticket, ctx, fingerprint);
    if ticket.dependencies.policy in s.policies {
      VerifySees(s, t, s.policies[ticket.dependencies.policy], ticket.verdict, now, limits);
    }
  }

  lemma NotYetRecorded(s: State, attempt: Id, request: Id, other: Id, fingerprint: Id, limits: Limits)
    requires attempt != other && Replay(s, other, fingerprint).None?
    ensures Replay(Recorded(s, attempt, request, POLICY_UPDATED, limits), other, fingerprint).None?
  {
  }

  lemma CallerSees(s: State, t: State, ctx: Context)
    requires t.epoch == s.epoch && t.fenced == s.fenced && t.registrations == s.registrations
    ensures CallerRefusal(t, ctx, None, None) == CallerRefusal(s, ctx, None, None)
  {
  }

  // A commit re-verifies nothing of the other policies, the indexes or the
  // names.
  lemma CommitSees(s: State, t: State, ticket: Ticket, ctx: Context, fingerprint: Id)
    requires SameCounters(s, t) && SameAuthority(s, t)
    requires Replay(s, ctx.attempt, fingerprint).None? && Replay(t, ctx.attempt, fingerprint).None?
    requires t.policies == s.policies
    ensures CommitRefusal(t, ticket, ctx, fingerprint) == CommitRefusal(s, ticket, ctx, fingerprint)
  {
    hide CallerRefusal, Drift, Replay;
    CallerSees(s, t, ctx);
  }

  lemma VerifySees(s: State, t: State, r: PolicyRecord, v: Verdict, now: Ticks, limits: Limits)
    requires Pending(t, now) == Pending(s, now)
    ensures VerifyRefusal(t, r, v, now, limits) == VerifyRefusal(s, r, v, now, limits)
  {
    hide SuppressedNow, Pending;
  }

  lemma RedeclaredDrift(cs: seq<Candidate>, i: nat, c: Candidate, d: Dependencies)
    requires Fencing.Complete(d) && Drift(cs, d).None? && i < |cs|
    requires PathOf(c) == PathOf(cs[i]) && c.watermark == cs[i].watermark
    ensures Drift(cs[i := c], d).None? <==> RepeatsAuthority(cs[i], c.binding)
  {
    hide Drift;
    DriftIsExact(cs, d);
    DriftIsExact(cs[i := c], d);
    assert cs[i := c][i] == c;
  }

  lemma RedeclaredVerify(s: State, r: PolicyRecord, i: nat, c: Candidate, v: Verdict, now: Ticks, limits: Limits)
    requires i < |r.candidates| && i == Position(r.candidates, PathOf(c))
    requires RepeatsAuthority(r.candidates[i], c.binding)
    ensures VerifyRefusal(s, r.(candidates := r.candidates[i := c]), v, now, limits).None?
            <==> VerifyRefusal(s, r, v, now, limits).None?
  {
    hide Pending, ChurnExhausted, VerifiedHoldDown, Position;
    FindReplaced(r.candidates, c, v.target);
  }

  lemma RedeclaredCommit(
    s: State, t: State, i: nat, c: Candidate, ticket: Ticket, ctx: Context, fingerprint: Id)
    requires CommitRefusal(s, ticket, ctx, fingerprint).None? && Fencing.Complete(ticket.dependencies)
    requires ticket.verdict.lifecycle == ELIGIBLE && ticket.dependencies.policy in s.policies
    requires var r := s.policies[ticket.dependencies.policy];
             && i < |r.candidates| && PathOf(c) == PathOf(r.candidates[i]) && c.watermark == r.candidates[i].watermark
             && t == s.(policies := s.policies[ticket.dependencies.policy := r.(candidates := r.candidates[i := c])])
    ensures CommitRefusal(t, ticket, ctx, fingerprint).None?
            <==> RepeatsAuthority(s.policies[ticket.dependencies.policy].candidates[i], c.binding)
  {
    hide CallerRefusal, Drift, Replay, RepeatsAuthority;
    CommitNeedsPolicy(s, ticket, ctx, fingerprint);
    CallerSees(s, t, ctx);
    SameReplay(s, t, ctx.attempt, fingerprint);
    RedeclaredDrift(s.policies[ticket.dependencies.policy].candidates, i, c, ticket.dependencies);
  }

  lemma SameReplay(s: State, t: State, attempt: Id, fingerprint: Id)
    requires t.attempts == s.attempts
    ensures Replay(t, attempt, fingerprint) == Replay(s, attempt, fingerprint)
  {
  }

  lemma RedeclaredKeepsCommit(
    s: State, n: Notification, ticket: Ticket, ctx: Context, fingerprint: Id, now: Ticks, limits: Limits)
    requires CommitsTicket(s, ticket, ctx, fingerprint, now, limits) && Fencing.Complete(ticket.dependencies)
    requires n.policy == ticket.dependencies.policy && CandidateOf(s, n.policy, n.binding.path).Some?
    ensures CommitsTicket(Redeclared(s, n), ticket, ctx, fingerprint, now, limits)
            <==> RepeatsAuthority(CandidateOf(s, n.policy, n.binding.path).value, n.binding)
  {
    hide CommitRefusal, VerifyRefusal, RepeatsAuthority, Pending;
    var t := Redeclared(s, n);
    var r := s.policies[n.policy];
    var i := Position(r.candidates, n.binding.path);
    var c := r.candidates[i].(binding := n.binding);
    RedeclaredCommit(s, t, i, c, ticket, ctx, fingerprint);
    SamePending(s, t, now);
    VerifySees(s, t, t.policies[n.policy], ticket.verdict, now, limits);
    if RepeatsAuthority(r.candidates[i], n.binding) {
      RedeclaredVerify(s, r, i, c, ticket.verdict, now, limits);
    }
  }

  lemma SamePending(s: State, t: State, now: Ticks)
    requires t.policies.Keys == s.policies.Keys
    requires forall p :: p in s.policies ==> t.policies[p].timing == s.policies[p].timing
    ensures Pending(t, now) == Pending(s, now)
  {
    assert (set id | id in t.policies && HeldDown(t.policies[id], now))
        == (set id | id in s.policies && HeldDown(s.policies[id], now));
  }

  // The preferred candidate fails one of the gates every evaluation applies.
  ghost predicate PrefersRefused(s: State, p: Id)
  {
    p in s.policies
    && var r := s.policies[p];
       match Find(r.candidates, r.preference.preferred)
       case None => false
       case Some(c) => BindingRefusal(r.policy.semantics.target, c.binding).Some?
  }

  // A commit that is about to succeed still succeeds after its target was
  // declared again exactly when the declaration repeats the authority; and when
  // that declaration made the target unavailable, its route stale or took it out
  // of the set, the commit moves the preference onto a refused path.
  lemma RedeclarationEscapes(
    s: State, n: Notification, ctx': Context, request: Id, ticket: Ticket, ctx: Context, fingerprint: Id,
    minted: Minted, now: Ticks, limits: Limits)
    requires CommitsTicket(s, ticket, ctx, fingerprint, now, limits) && Fencing.Complete(ticket.dependencies)
    requires UpstreamRefusal(s, [n], ctx', request, limits).None? && NoteApplies(s, n, ctx', limits)
    requires n.event.DeclareCandidate? && ctx'.attempt != ctx.attempt
    requires n.policy == ticket.dependencies.policy && n.binding.path == ticket.verdict.target
    ensures var t := UpstreamStep(s, [n], ctx', request, limits).state;
            && CandidateOf(s, n.policy, n.binding.path).Some?
            && (RepeatsAuthority(CandidateOf(s, n.policy, n.binding.path).value, n.binding) <==>
                  CommitsTicket(t, ticket, ctx, fingerprint, now, limits))
            && (CommitsTicket(t, ticket, ctx, fingerprint, now, limits) ==>
                  (BindingRefusal(s.policies[n.policy].policy.semantics.target, n.binding).Some? <==>
                     PrefersRefused(CommitStep(t, ticket, ctx, fingerprint, minted, now, limits).state, n.policy)))
  {
    hide NoteRefusal, EventRefusal, UpstreamRefusal, Recorded, CommitRefusal, VerifyRefusal, Position, AsksForMove,
         BindingRefusal;
    var t := UpstreamStep(s, [n], ctx', request, limits).state;
    VerifiedHasTarget(s, s.policies[n.policy], ticket.verdict, now, limits);
    RedeclaringStep(s, n, ctx', request, limits);
    RecordedPolicies(Redeclared(s, n), ctx'.attempt, request, limits);
    NotReplayed(s, ticket, ctx, fingerprint);
    RedeclaredKeepsCommit(s, n, ticket, ctx, fingerprint, now, limits);
    RecordedKeepsCommit(Redeclared(s, n), ctx'.attempt, request, ticket, ctx, fingerprint, now, limits);
    if CommitsTicket(t, ticket, ctx, fingerprint, now, limits) {
      CommitPrefers(s, t, n, ticket, ctx, fingerprint, minted, now, limits);
    }
  }

  lemma RecordedPolicies(s: State, attempt: Id, request: Id, limits: Limits)
    ensures Recorded(s, attempt, request, POLICY_UPDATED, limits).policies == s.policies
  {
  }

  lemma NotReplayed(s: State, t: Ticket, ctx: Context, fingerprint: Id)
    ensures CommitRefusal(s, t, ctx, fingerprint).None? ==> Replay(s, ctx.attempt, fingerprint).None?
  {
    hide CallerRefusal, DependencyRefusal, Replay;
  }

  lemma CommitPrefers(
    s: State, t: State, n: Notification, ticket: Ticket, ctx: Context, fingerprint: Id, minted: Minted, now: Ticks,
    limits: Limits)
    requires CandidateOf(s, n.policy, n.binding.path).Some? && t.policies == Redeclared(s, n).policies
    requires CommitsTicket(t, ticket, ctx, fingerprint, now, limits)
    requires n.policy == ticket.dependencies.policy && n.binding.path == ticket.verdict.target
    ensures PrefersRefused(CommitStep(t, ticket, ctx, fingerprint, minted, now, limits).state, n.policy)
            <==> BindingRefusal(s.policies[n.policy].policy.semantics.target, n.binding).Some?
  {
    hide CommitRefusal, VerifyRefusal, Logged, BindingRefusal, Armed, Anchored;
    VerifiedHasTarget(t, t.policies[n.policy], ticket.verdict, now, limits);
    var r := s.policies[n.policy];
    WithCandidateFinds(r, Find(r.candidates, n.binding.path).value.(binding := n.binding), n.binding.path);
  }

  // Any such declaration is accepted just as well with the path marked as
  // unavailable.
  lemma UnavailableDeclarationApplies(s: State, n: Notification, ctx: Context, limits: Limits)
    requires NoteApplies(s, n, ctx, limits) && n.event.DeclareCandidate?
    ensures var withdrawn := n.(binding := n.binding.(available := false));
            NoteApplies(s, withdrawn, ctx, limits)
            && BindingRefusal(s.policies[n.policy].policy.semantics.target, withdrawn.binding).Some?
  {
    hide TargetRefusal;
  }
}
