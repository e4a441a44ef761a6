// The rollback anchor over whole runs.

module Anchor {
  import opened Base
  import opened Outcomes
  import opened Policy
  import opened Records
  import opened Evaluation
  import opened Durable
  import opened Fabric
  import opened Runs
  import opened Moves
  import opened Invariants

  // Preference, anchor and generations of one policy; nothing when it does not
  // exist.
  datatype Standing = Standing(preferred: Id, previous: Id, anchor: Option<Id>, adaptation: int, transition: int)

  ghost function StandingOf(s: State, p: Id): Standing
  {
    if p !in s.policies then Standing(NO_ID, NO_ID, None, 0, 0)
    else
      var r := s.policies[p];
      Standing(r.preference.preferred, r.preference.previous,
               if r.stable.established then Some(r.stable.path) else None,
               r.preference.adaptation, r.preference.transition)
  }

  // Along every run from the initial state, the anchor of a policy exists
  // exactly when a path was displaced; then it is that path, different from the
  // preferred one, and both generations agree.
  lemma AnchorOnEveryRun(es: seq<Event>, p: Id, limits: Limits)
    ensures var x := StandingOf(Exec(INITIAL_STATE, es, limits), p);
            && (x.anchor == (if ValidId(x.previous) then Some(x.previous) else None))
            && (x.anchor.Some? ==> x.anchor.value != x.preferred && ValidId(x.preferred))
            && x.adaptation == x.transition
  {
    hide After;
    ExecOk(INITIAL_STATE, es, limits);
  }

  // One step of the standing.
  ghost predicate Shifted(x: Standing, y: Standing, m: Option<Move>)
  {
    match m
    case None => y == x
    case Some(move) =>
      y == Standing(move.to, if move.Adapts() then x.preferred else NO_ID,
                    if move.Adapts() then Some(x.preferred) else None, x.adaptation + 1, x.transition + 1)
      && move.from == x.preferred
  }

  lemma StepShifts(s: State, e: Event, p: Id, limits: Limits)
    requires StateOk(s) && p in s.policies && Within(s, e, p, limits)
    ensures Shifted(StandingOf(s, p), StandingOf(After(s, e, limits), p), MoveOf(s, e, p, limits))
  {
    hide After, MoveOf, AnchorOk, UpdatesPolicy, QuiescesPolicies, Restarts, TimersAfter;
    StepMoves(s, e, p, limits);
  }

  // Both generations advance together, once for every preference change.
  lemma {:induction false} GenerationsCountMoves(s: State, es: seq<Event>, p: Id, limits: Limits)
    requires StateOk(s) && p in s.policies && RunWithin(s, es, p, limits)
    ensures var x, y, n := StandingOf(s, p), StandingOf(Exec(s, es, limits), p), |MovesOf(s, es, p, limits)|;
            y.adaptation == x.adaptation + n && y.transition == x.transition + n && (n == 0 ==> y == x)
    decreases |es|
  {
    hide After, MoveOf, Within, StateOk, StandingOf;
    if es != [] {
      var t := After(s, es[0], limits);
      StepShifts(s, es[0], p, limits);
      StepOk(s, es[0], limits);
      OkIsKeyed(s);
      StepStays(s, es[0], p, limits);
      GenerationsCountMoves(t, es[1..], p, limits);
    }
  }

  lemma OkIsKeyed(s: State)
    ensures StateOk(s) ==> Keyed(s)
  {
    hide PolicyOk;
  }

  lemma StepStays(s: State, e: Event, p: Id, limits: Limits)
    requires Keyed(s) && p in s.policies
    ensures p in After(s, e, limits).policies
  {
    hide After, Change;
    Evolution(s, e, p, limits);
  }

  // Two rollbacks with no other preference change between them bring back the
  // preferred path, the previous path and the anchor.
  lemma TwoRollbacksRestore(s: State, e1: Event, es: seq<Event>, e2: Event, p: Id, limits: Limits)
    requires StateOk(s) && RollsBack(s, e1, p)
    requires var t := After(s, e1, limits);
             RunWithin(t, es, p, limits) && MovesOf(t, es, p, limits) == [] && RollsBack(Exec(t, es, limits), e2, p)
    ensures var x, y := StandingOf(s, p), StandingOf(After(Exec(After(s, e1, limits), es, limits), e2, limits), p);
            y.preferred == x.preferred && y.previous == x.previous && y.anchor == x.anchor
            && y.adaptation == x.adaptation + 2
  {
    hide After, StandingOf, StateOk, RunWithin, MovesOf, Exec;
    var t := After(s, e1, limits);
    var u := Exec(t, es, limits);
    RollbackShifts(s, e1, p, limits);
    StepOk(s, e1, limits);
    GenerationsCountMoves(t, es, p, limits);
    ExecOk(t, es, limits);
    RollbackShifts(u, e2, p, limits);
  }

  // Preferred and previous path exchanged, both generations one higher.
  ghost predicate SwappedBack(x: Standing, y: Standing)
  {
    && x.anchor == Some(x.previous)
    && y == Standing(x.previous, x.preferred, Some(x.preferred), x.adaptation + 1, x.transition + 1)
  }

  lemma RollbackShifts(s: State, e: Event, p: Id, limits: Limits)
    requires StateOk(s) && RollsBack(s, e, p)
    ensures p in After(s, e, limits).policies
    ensures SwappedBack(StandingOf(s, p), StandingOf(After(s, e, limits), p))
  {
    hide After, RollsBack, Within, MoveOf, StateOk;
    OkIsKeyed(s);
    RollbackIsMove(s, e, p, limits);
    StepStays(s, e, p, limits);
    StepShifts(s, e, p, limits);
  }

  lemma RollbackIsMove(s: State, e: Event, p: Id, limits: Limits)
    requires StateOk(s) && RollsBack(s, e, p)
    ensures p in s.policies && Within(s, e, p, limits)
    ensures StandingOf(s, p).anchor == Some(StandingOf(s, p).previous)
    ensures MoveOf(s, e, p, limits) == Some(Move(e.now, Return, StandingOf(s, p).preferred, StandingOf(s, p).previous))
  {
    hide RollbackRefusal, RestoreRefusal, CommitsTicket, UpdateRefusal, RecoveryRefusal, BuildDurable, AnchorOk,
         StateOk;
    OkAnchor(s, p);
    RestoreHasTarget(s.policies[p]);
    RestorablePrevious(s.policies[p]);
  }

  lemma OkAnchor(s: State, p: Id)
    ensures StateOk(s) && p in s.policies ==> AnchorOk(s.policies[p])
  {
    hide AnchorOk, BindingsOk, Semantics.FirstDefect;
  }

  lemma RestorablePrevious(r: PolicyRecord)
    requires AnchorOk(r) && r.stable.established
    ensures r.stable.path == r.preference.previous && ValidId(r.preference.previous)
  {
  }

  // What rollback asks of the anchor's binding is exactly what eligibility asks
  // of a candidate, although it never compares the set identity; and because
  // the anchor always differs from the preferred path, the harmless no-op
  // answer is never given.
  lemma RollbackTestIsEligibility(s: State, p: Id)
    requires StateOk(s) && p in s.policies && s.policies[p].stable.established
    ensures var r := s.policies[p];
            match Find(r.candidates, r.stable.path)
            case None => RestoreRefusal(r) == Some((ROLLBACK_REFUSED, true))
            case Some(c) =>
              match BindingRefusal(r.policy.semantics.target, c.binding)
              case Some(outcome) => RestoreRefusal(r) == Some((outcome, outcome == STALE_PATH_AUTHORITY))
              case None => RestoreRefusal(r).None? || RestoreRefusal(r) == Some((GENERATION_OVERFLOW, false))
  {
    var r := s.policies[p];
    var c := Find(r.candidates, r.stable.path);
    if c.Some? {
      assert SetMatches(r.policy.semantics.target, c.value.binding);
    }
  }
}
