// The preference changes of one policy along a run, with their timers, their
// rollback anchor and their dampening.

module Moves {
  import opened Base
  import opened Outcomes
  import opened Policy
  import opened Records
  import opened Evaluation
  import opened Durable
  import opened Fabric
  import opened Runs

  datatype MoveKind = Establishment | Ordinary | Urgent | Return

  // One preference change: when, why, from where to where.
  datatype Move = Move(at: Ticks, kind: MoveKind, from: Id, to: Id)
  {
    // Establishing the first preference is no adaptation.
    predicate Adapts() { !kind.Establishment? }
  }

  ghost function MoveOf(s: State, e: Event, p: Id, limits: Limits): Option<Move>
  {
    if Commits(s, e, p, limits) then
      var r, v := s.policies[p], e.op.ticket.verdict;
      Some(Move(e.now, if !r.preference.established then Establishment else if v.emergency then Urgent else Ordinary,
                r.preference.preferred, v.target))
    else if RollsBack(s, e, p) then
      var r := s.policies[p];
      Some(Move(e.now, Return, r.preference.preferred, r.stable.path))
    else None
  }

  // A step that leaves the policy's epoch and semantics alone.
  ghost predicate Within(s: State, e: Event, p: Id, limits: Limits)
  {
    !UpdatesPolicy(s, e, p, limits) && !QuiescesPolicies(s, e) && !Restarts(s, e, limits)
  }

  ghost predicate RunWithin(s: State, es: seq<Event>, p: Id, limits: Limits)
    decreases |es|
  {
    es != [] ==> Within(s, es[0], p, limits) && RunWithin(After(s, es[0], limits), es[1..], p, limits)
  }

  ghost function MovesOf(s: State, es: seq<Event>, p: Id, limits: Limits): seq<Move>
    decreases |es|
  {
    if es == [] then []
    else
      var rest := MovesOf(After(s, es[0], limits), es[1..], p, limits);
      var first := MoveOf(s, es[0], p, limits);
      if first.Some? then [first.value] + rest else rest
  }

  // ------------------------------------------------------------------------
  // What a move does
  // ------------------------------------------------------------------------

  // Timers after a move: a commit escalates, a rollback arms the base durations.
  function TimersAfter(sem: Semantics, t: Timing, m: Move, limits: Limits): Timing
  {
    match m.kind
    case Establishment => t
    case Return =>
      t.(holdDownActive := sem.holdDown != 0, holdDownDeadline := WrapAdd(m.at, sem.holdDown), lockedPath := m.from,
         cooldownActive := sem.cooldown != 0, cooldownDeadline := WrapAdd(m.at, sem.cooldown),
         churn := t.churn + [m.at])
    case _ => Armed(sem, t, m.from, m.at, limits)
  }

  ghost predicate Moved(r: PolicyRecord, r': PolicyRecord, m: Move, limits: Limits)
  {
    && r'.policy == r.policy
    && m.from == r.preference.preferred && m.to != m.from
    && r'.preference.preferred == m.to && r'.preference.established == (m.kind.Return? ==> r.preference.established)
    && r'.preference.previous == (if m.kind.Establishment? then NO_ID else m.from)
    && r'.preference.adaptation == r.preference.adaptation + 1
    && r'.preference.transition == r.preference.transition + 1
    && (if m.kind.Establishment? then r'.stable == NO_STABLE else r'.stable == Anchored(r.preference, m.at))
    && r'.timing == TimersAfter(r.policy.semantics, r.timing, m, limits)
    && (m.kind.Establishment? <==> !r.preference.established && !m.kind.Return?)
    && (m.kind.Return? ==> r.stable.established && r.stable.path == m.to)
  }

  ghost predicate Stays(r: PolicyRecord, r': PolicyRecord)
  {
    && r'.preference == r.preference && r'.stable == r.stable && r'.timing == r.timing
    && r'.policy == r.policy.(lifecycle := r'.policy.lifecycle, epoch := r'.policy.epoch)
  }

  ghost predicate MovedOrStays(s: State, t: State, p: Id, m: Option<Move>, limits: Limits)
  {
    && p in s.policies && p in t.policies
    && match m
       case None => Stays(s.policies[p], t.policies[p])
       case Some(move) => Moved(s.policies[p], t.policies[p], move, limits)
  }

  lemma CommittedMoves(s: State, e: Event, p: Id, limits: Limits, r': PolicyRecord)
    requires Commits(s, e, p, limits) && r' == CommittedBy(s, e, p, limits)
    requires s.policies[p].preference.established || s.policies[p].preference.preferred == NO_ID
    requires forall c :: c in s.policies[p].candidates ==> ValidId(PathOf(c))
    ensures Moved(s.policies[p], r', MoveOf(s, e, p, limits).value, limits)
  {
    hide CommitRefusal, SuppressedNow, Pending, Armed, Anchored;
    VerifiedHasTarget(s, s.policies[p], e.op.ticket.verdict, e.now, limits);
  }

  lemma RolledBackMoves(s: State, e: Event, p: Id, limits: Limits, r': PolicyRecord)
    requires RollsBack(s, e, p) && r' == RolledBackBy(s, e, p, limits)
    requires s.policies[p].stable.path != s.policies[p].preference.preferred
    ensures Moved(s.policies[p], r', Move(e.now, Return, s.policies[p].preference.preferred, s.policies[p].stable.path),
                  limits)
  {
    hide RollbackRefusal, Anchored;
    RestoreHasTarget(s.policies[p]);
  }

  // ------------------------------------------------------------------------
  // The rollback anchor
  // ------------------------------------------------------------------------

  // The anchor is established exactly when a path was displaced; then it is
  // that path, and it differs from the preferred one. Both generations agree.
  ghost predicate AnchorHolds(q: Preference, anchor: Stable)
  {
    && (anchor.established <==> ValidId(q.previous))
    && (anchor.established ==> anchor.path == q.previous && q.previous != q.preferred && q.established)
    && (q.established <==> ValidId(q.preferred))
    && q.adaptation == q.transition >= 1
  }

  ghost predicate AnchorOk(r: PolicyRecord) { AnchorHolds(r.preference, r.stable) }

  ghost predicate NamedCandidates(cs: seq<Candidate>)
  {
    forall c :: c in cs ==> ValidId(PathOf(c))
  }

  // A step inside one epoch and policy generation either is a move, with all
  // its consequences, or leaves preference, anchor and timers alone.
  lemma StepMoves(s: State, e: Event, p: Id, limits: Limits)
    requires Keyed(s) && p in s.policies && Within(s, e, p, limits)
    requires AnchorOk(s.policies[p]) && NamedCandidates(s.policies[p].candidates)
    ensures MovedOrStays(s, After(s, e, limits), p, MoveOf(s, e, p, limits), limits)
  {
    hide After, CommitsTicket, RollbackRefusal, UpdateRefusal, RecoveryRefusal, BuildDurable, RestoreRefusal,
         CommittedBy, RolledBackBy, Moved, Updated, Quiesced, RestartedRecord;
    Evolution(s, e, p, limits);
    var r' := After(s, e, limits).policies[p];
    if Commits(s, e, p, limits) {
      CommittedMoves(s, e, p, limits, r');
    } else if RollsBack(s, e, p) {
      RestoreHasTarget(s.policies[p]);
      RolledBackMoves(s, e, p, limits, r');
    }
  }

  lemma MovedKeepsAnchor(r: PolicyRecord, r': PolicyRecord, m: Move, limits: Limits)
    requires AnchorOk(r) && Moved(r, r', m, limits) && ValidId(m.to)
    ensures AnchorOk(r')
  {
  }

  lemma MoveTargetNamed(s: State, e: Event, p: Id, limits: Limits)
    requires p in s.policies && AnchorOk(s.policies[p]) && NamedCandidates(s.policies[p].candidates)
    ensures MoveOf(s, e, p, limits).Some? ==> ValidId(MoveOf(s, e, p, limits).value.to)
  {
    hide CommitRefusal, SuppressedNow, Pending, RollbackRefusal;
    if Commits(s, e, p, limits) {
      VerifiedHasTarget(s, s.policies[p], e.op.ticket.verdict, e.now, limits);
    } else if RollsBack(s, e, p) {
      RestoreHasTarget(s.policies[p]);
    }
  }
}
