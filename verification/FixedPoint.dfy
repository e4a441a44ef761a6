// Evaluation settles: with frozen inputs it changes the preference at most once.

module FixedPoint {
  import opened Base
  import opened Evidence
  import opened Outcomes
  import opened Policy
  import opened Records
  import opened Ranking
  import opened Evaluation
  import opened Fabric
  import opened Runs
  import opened Fencing
  import opened Moves
  import opened Invariants
  import opened Anchor
  import opened Timers

  // The best candidate at a clock reading. It does not depend on the current
  // preference, the timers or the anchor.
  ghost function BestOf(s: State, p: Id, clock: Ticks): Option<Id>
  {
    if p !in s.policies then None
    else
      var r := s.policies[p];
      var sem := r.policy.semantics;
      var judged := Judged(sem, r.candidates, Captured(s.evidence, r.candidates, sem.evidence), clock);
      match FirstEligible(Ranked(judged, sem.objective))
      case None => None
      case Some(best) => Some(best.path)
  }

  lemma EligibleTarget(s: State, p: Id, clock: Ticks)
    requires p in s.policies
    ensures var v := Decide(InputsOf(s, p, clock));
            v.lifecycle == ELIGIBLE ==>
              BestOf(s, p, clock) == Some(v.target)
              && (s.policies[p].preference.established ==> v.target != s.policies[p].preference.preferred)
  {
    hide Captured, Judged, Ranked, FirstEligible, EntryStop, OrdinaryStop, Proposal, IncumbentStop, EmergencyHolds;
  }

  // A commit presents the ticket begun at this clock reading on this state.
  ghost predicate PresentsNow(s: State, e: Event, p: Id, clock: Ticks)
  {
    e.op.Commit? && e.op.ticket.dependencies.policy == p ==>
      exists ctx :: e.op.ticket == Begin(s, p, ctx, e.op.ticket.decision, clock)
  }

  lemma MoveGoesToBest(s: State, e: Event, p: Id, m: Move, from: State, clock: Ticks, limits: Limits)
    requires MoveOf(s, e, p, limits) == Some(m) && !m.kind.Return? && PresentsNow(from, e, p, clock)
    ensures BestOf(from, p, clock) == Some(m.to)
  {
    hide CommitRefusal, VerifyRefusal, InputsOf, Decide, RollbackRefusal, RestoreRefusal, Begin, BestOf;
    var ctx :| e.op.ticket == Begin(from, p, ctx, e.op.ticket.decision, clock);
    CommitAccepted(s, e.op.ticket, e.op.context, e.op.fingerprint);
    BeginFacts(from, p, ctx, e.op.ticket.decision, clock);
    EligibleTarget(from, p, clock);
  }

  // Evidence, bindings and policy of p look alike in both states.
  ghost predicate Alike(s: State, t: State, p: Id)
  {
    && p in s.policies && p in t.policies && t.evidence == s.evidence
    && t.policies[p].candidates == s.policies[p].candidates
    && t.policies[p].policy.semantics == s.policies[p].policy.semantics
  }

  lemma AlikeBest(s: State, t: State, p: Id, clock: Ticks)
    ensures Alike(s, t, p) ==> BestOf(t, p, clock) == BestOf(s, p, clock)
  {
  }

  // The ticket was begun at this clock reading on some state that looked alike:
  // the present one, or any other state of a frozen run.
  ghost predicate PresentsAlike(s: State, e: Event, p: Id, clock: Ticks)
  {
    exists u :: Alike(s, u, p) && PresentsNow(u, e, p, clock)
  }

  // Every commit on p presents a ticket begun at one clock reading on inputs like
  // the present ones, nothing is rolled back, and evidence, bindings and policy
  // stay as they are.
  ghost predicate Frozen(s: State, es: seq<Event>, p: Id, clock: Ticks, limits: Limits)
    decreases |es|
  {
    es != [] ==>
      && PresentsAlike(s, es[0], p, clock) && !RollsBack(s, es[0], p)
      && Alike(s, After(s, es[0], limits), p)
      && Frozen(After(s, es[0], limits), es[1..], p, clock, limits)
  }

  // The preference is already the best candidate.
  ghost predicate Settled(s: State, p: Id, clock: Ticks)
  {
    p in s.policies && s.policies[p].preference.established
    && BestOf(s, p, clock) == Some(s.policies[p].preference.preferred)
  }

  lemma NoReturn(s: State, e: Event, p: Id, limits: Limits)
    requires !RollsBack(s, e, p) && MoveOf(s, e, p, limits).Some?
    ensures !MoveOf(s, e, p, limits).value.kind.Return?
  {
    hide CommitsTicket, RollsBack;
  }

  // Nothing moves away from a settled preference, and any move settles it.
  lemma StepSettles(s: State, e: Event, p: Id, clock: Ticks, limits: Limits)
    requires StateOk(s) && Within(s, e, p, limits) && PresentsAlike(s, e, p, clock) && !RollsBack(s, e, p)
    requires Alike(s, After(s, e, limits), p)
    ensures Settled(s, p, clock) ==> MoveOf(s, e, p, limits).None? && Settled(After(s, e, limits), p, clock)
    ensures MoveOf(s, e, p, limits).Some? ==> Settled(After(s, e, limits), p, clock)
  {
    hide After, MoveOf, Within, PresentsNow, RollsBack, BestOf, TimersAfter;
    var m := MoveOf(s, e, p, limits);
    StepMoves(s, e, p, limits);
    AlikeBest(s, After(s, e, limits), p, clock);
    if m.Some? {
      NoReturn(s, e, p, limits);
      var u :| Alike(s, u, p) && PresentsNow(u, e, p, clock);
      MoveGoesToBest(s, e, p, m.value, u, clock, limits);
      AlikeBest(s, u, p, clock);
    }
  }

  // With frozen inputs, any sequence of commits, whenever their evaluations began,
  // changes the preference at most once, and not at all once it is the best
  // candidate.
  lemma {:induction false} EvaluationSettles(s: State, es: seq<Event>, p: Id, clock: Ticks, limits: Limits)
    requires StateOk(s) && p in s.policies && RunWithin(s, es, p, limits) && Frozen(s, es, p, clock, limits)
    ensures |MovesOf(s, es, p, limits)| <= 1
    ensures Settled(s, p, clock) ==> MovesOf(s, es, p, limits) == []
    decreases |es|
  {
    hide After, MoveOf, Within, PresentsAlike, RollsBack, StateOk, Settled;
    if es != [] {
      StepSettles(s, es[0], p, clock, limits);
      StepOk(s, es[0], limits);
      EvaluationSettles(After(s, es[0], limits), es[1..], p, clock, limits);
    }
  }

  // Of two tickets begun on like inputs at one clock reading at most one changes
  // the preference: after the first has, the second is refused or answered
  // without a change, however much later it comes, unless something else moves
  // the preference in between.
  lemma TwoTicketsMoveOnce(
    s: State, s': State, t: State, e1: Event, m1: Move, es: seq<Event>, e2: Event, p: Id, sem: Semantics, clock: Ticks,
    limits: Limits)
    requires StateOk(t) && HasSemantics(t, p, sem) && Within(t, e1, p, limits)
    requires MoveOf(t, e1, p, limits) == Some(m1) && !m1.kind.Return?
    requires QuietAfter(t, e1, es, p, limits)
    requires (s == s' || Alike(s, s', p)) && PresentsNow(s, e1, p, clock) && PresentsNow(s', e2, p, clock)
    requires !e2.op.Rollback?
    ensures MoveOf(Exec(After(t, e1, limits), es, limits), e2, p, limits).None?
  {
    hide After, MoveOf, Within, PresentsNow, StateOk, StandingOf, HasSemantics, TimingOf, RunWithin, MovesOf, Exec,
         BestOf;
    var u := After(t, e1, limits);
    var w := Exec(u, es, limits);
    HasPolicy(t, p, sem);
    StepShifts(t, e1, p, limits);
    StepTimers(t, e1, p, sem, limits);
    StepOk(t, e1, limits);
    QuietRun(u, es, p, sem, limits);
    MoveGoesToBest(t, e1, p, m1, s, clock, limits);
    var m2 := MoveOf(w, e2, p, limits);
    if m2.Some? {
      ForwardMove(w, e2, p, limits);
      MoveGoesToBest(w, e2, p, m2.value, s', clock, limits);
      if s != s' {
        AlikeBest(s, s', p, clock);
      }
      ExecOk(u, es, limits);
      HasPolicy(w, p, sem);
      MovesAway(w, e2, p, m2.value, limits);
    }
  }

  lemma ForwardMove(s: State, e: Event, p: Id, limits: Limits)
    requires !e.op.Rollback? && MoveOf(s, e, p, limits).Some?
    ensures !MoveOf(s, e, p, limits).value.kind.Return?
  {
    hide CommitsTicket;
  }

  // A move never stays where it is.
  lemma MovesAway(s: State, e: Event, p: Id, m: Move, limits: Limits)
    requires StateOk(s) && p in s.policies && MoveOf(s, e, p, limits) == Some(m) && !m.kind.Return?
    ensures m.to != StandingOf(s, p).preferred
  {
    hide CommitRefusal, VerifyRefusal, RollbackRefusal, RestoreRefusal;
    MoveTargetNamed(s, e, p, limits);
  }
}
