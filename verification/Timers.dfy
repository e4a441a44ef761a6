// Hold-down, cooldown and dampening over runs.

module Timers {
  import opened Base
  import opened Outcomes
  import opened Policy
  import opened Records
  import opened Evaluation
  import opened Fabric
  import opened Runs
  import opened Moves
  import opened Invariants
  import opened Anchor

  ghost function TimingOf(s: State, p: Id): Timing { if p in s.policies then s.policies[p].timing else NO_TIMING }

  ghost predicate HasSemantics(s: State, p: Id, sem: Semantics)
  {
    p in s.policies && s.policies[p].policy.semantics == sem
  }

  // ------------------------------------------------------------------------
  // One step
  // ------------------------------------------------------------------------

  lemma StepTimers(s: State, e: Event, p: Id, sem: Semantics, limits: Limits)
    requires StateOk(s) && HasSemantics(s, p, sem) && Within(s, e, p, limits)
    ensures HasSemantics(After(s, e, limits), p, sem)
    ensures TimingOf(After(s, e, limits), p) ==
      match MoveOf(s, e, p, limits)
      case None => TimingOf(s, p)
      case Some(m) => TimersAfter(sem, TimingOf(s, p), m, limits)
  {
    hide After, MoveOf, AnchorOk, UpdatesPolicy, QuiescesPolicies, Restarts, TimersAfter;
    StepMoves(s, e, p, limits);
  }

  lemma {:induction false} QuietRun(s: State, es: seq<Event>, p: Id, sem: Semantics, limits: Limits)
    requires StateOk(s) && HasSemantics(s, p, sem) && RunWithin(s, es, p, limits) && MovesOf(s, es, p, limits) == []
    ensures HasSemantics(Exec(s, es, limits), p, sem) && TimingOf(Exec(s, es, limits), p) == TimingOf(s, p)
    ensures StandingOf(Exec(s, es, limits), p) == StandingOf(s, p)
    decreases |es|
  {
    hide After, MoveOf, Within, StateOk, StandingOf, HasSemantics, TimingOf;
    if es != [] {
      StepTimers(s, es[0], p, sem, limits);
      HasPolicy(s, p, sem);
      StepShifts(s, es[0], p, limits);
      StepOk(s, es[0], limits);
      QuietRun(After(s, es[0], limits), es[1..], p, sem, limits);
    }
  }

  lemma HasPolicy(s: State, p: Id, sem: Semantics)
    ensures HasSemantics(s, p, sem) ==> p in s.policies
  {
  }

  // ------------------------------------------------------------------------
  // Dampening
  // ------------------------------------------------------------------------

  // Adaptations that raise the penalty: every commit after the first.
  ghost function Escalations(ms: seq<Move>): nat
  {
    if ms == [] then 0
    else Escalations(ms[1..]) + (if ms[0].kind.Ordinary? || ms[0].kind.Urgent? then 1 else 0)
  }

  // The penalty neither wraps nor, with its escalation, the hold-down.
  ghost predicate NoWrap(sem: Semantics)
  {
    && sem.dampening.maxPenalty + sem.dampening.increment < TWO_32
    && sem.holdDown + sem.dampening.maxPenalty * sem.dampening.escalation < TWO_64
  }

  function PenaltyAfter(d: Dampening, penalty: nat, k: nat): nat
  {
    if d.enabled then Min(d.maxPenalty, penalty + k * d.increment) else penalty
  }

  // After k adaptations inside one epoch and policy generation the penalty is
  // min(maxPenalty, p0 + k * increment); rollbacks do not count.
  lemma {:induction false} PenaltyLaw(s: State, es: seq<Event>, p: Id, sem: Semantics, limits: Limits)
    requires StateOk(s) && HasSemantics(s, p, sem) && RunWithin(s, es, p, limits)
    requires NoWrap(sem) && (sem.dampening.enabled ==> TimingOf(s, p).penalty <= sem.dampening.maxPenalty)
    ensures TimingOf(Exec(s, es, limits), p).penalty
         == PenaltyAfter(sem.dampening, TimingOf(s, p).penalty, Escalations(MovesOf(s, es, p, limits)))
    decreases |es|
  {
    hide After, MoveOf, Within, StateOk, HasSemantics, TimingOf;
    var d, before := sem.dampening, TimingOf(s, p).penalty;
    if es != [] {
      var t := After(s, es[0], limits);
      var m := MoveOf(s, es[0], p, limits);
      StepTimers(s, es[0], p, sem, limits);
      StepOk(s, es[0], limits);
      PenaltyLaw(t, es[1..], p, sem, limits);
      var k := Escalations(MovesOf(t, es[1..], p, limits));
      if m.Some? && (m.value.kind.Ordinary? || m.value.kind.Urgent?) {
        PenaltySteps(d, before, k);
      }
    }
  }

  lemma PenaltySteps(d: Dampening, penalty: u32, k: nat)
    requires d.enabled ==> penalty <= d.maxPenalty && d.maxPenalty + d.increment < TWO_32
    ensures PenaltyAfter(d, RaisedPenalty(d, penalty), k) == PenaltyAfter(d, penalty, k + 1)
  {
    assert (k + 1) * d.increment == k * d.increment + d.increment;
    assert k * d.increment >= 0;
  }

  // The hold-down armed with penalty p is min(D + p * step, cap), never below
  // the base duration, and never zero when dampening is on.
  lemma ArmedLaw(sem: Semantics, penalty: u32)
    requires sem.Valid() && NoWrap(sem) && (sem.dampening.enabled ==> penalty <= sem.dampening.maxPenalty)
    ensures Escalated(sem, penalty) == Min(sem.holdDown + penalty * sem.dampening.escalation, sem.dampening.maxHoldDown)
         || !sem.dampening.enabled
    ensures sem.dampening.enabled ==> Escalated(sem, penalty) >= sem.holdDown > 0
    ensures ArmedHoldDown(sem, penalty) >= sem.holdDown
  {
    var d := sem.dampening;
    ValidTimers(sem);
    hide Escalated, Semantics.FirstDefect;
    if d.enabled {
      EscalatedLaw(sem, penalty);
      EscalatedLaw(sem, RaisedPenalty(d, penalty));
    }
  }

  lemma ValidTimers(sem: Semantics)
    requires sem.Valid()
    ensures sem.dampening.enabled ==> sem.holdDown != 0 && sem.dampening.maxHoldDown >= sem.holdDown
  {
    assert sem.TimersValid();
  }

  lemma EscalatedLaw(sem: Semantics, penalty: u32)
    requires NoWrap(sem) && penalty <= sem.dampening.maxPenalty && sem.dampening.maxHoldDown >= sem.holdDown
    ensures Escalated(sem, penalty) == Min(sem.holdDown + penalty * sem.dampening.escalation, sem.dampening.maxHoldDown)
    ensures Escalated(sem, penalty) >= sem.holdDown
  {
    NoWrapEscalation(sem, penalty);
    MulMonotone(0, penalty, sem.dampening.escalation);
  }

  lemma NoWrapEscalation(sem: Semantics, penalty: u32)
    requires NoWrap(sem) && penalty <= sem.dampening.maxPenalty
    ensures WrapAdd(sem.holdDown, WrapMul(penalty, sem.dampening.escalation))
         == sem.holdDown + penalty * sem.dampening.escalation
  {
    MulMonotone(penalty, sem.dampening.maxPenalty, sem.dampening.escalation);
    MulMonotone(0, penalty, sem.dampening.escalation);
    SmallMod(penalty * sem.dampening.escalation);
    SmallMod(sem.holdDown + penalty * sem.dampening.escalation);
  }

  lemma SmallMod(x: nat)
    ensures x < TWO_64 ==> x % TWO_64 == x
  {
  }

  // ------------------------------------------------------------------------
  // Spacing
  // ------------------------------------------------------------------------

  // What a move arms: a commit the dampened hold-down, a rollback the base one.
  function HoldDownOf(sem: Semantics, penalty: u32, m: Move): Ticks
  {
    if m.kind.Return? then sem.holdDown else ArmedHoldDown(sem, penalty)
  }

  // The timers let a move through at a moment.
  ghost predicate TimersAllow(sem: Semantics, t: Timing, reverse: bool, at: Ticks)
  {
    && (t.cooldownActive ==> at >= t.cooldownDeadline)
    && (t.holdDownActive && reverse && VerifiedHoldDown(sem, t.penalty) != 0 ==> at >= t.holdDownDeadline)
  }

  lemma OrdinaryWaits(s: State, e: Event, p: Id, m: Move, sem: Semantics, limits: Limits)
    requires HasSemantics(s, p, sem) && MoveOf(s, e, p, limits) == Some(m) && m.kind.Ordinary?
    ensures m.at == e.now && !ChurnExhausted(sem.churn, TimingOf(s, p).churn, m.at)
    ensures TimersAllow(sem, TimingOf(s, p), ValidId(StandingOf(s, p).previous) && m.to == StandingOf(s, p).previous,
                        m.at)
  {
    hide CommitRefusal, RollbackRefusal, RestoreRefusal, VerifiedHoldDown, ChurnExhausted, Pending;
    VerifiedHasTarget(s, s.policies[p], e.op.ticket.verdict, e.now, limits);
  }

  // Two consecutive preference changes inside one epoch and policy generation:
  // when the later one is an ordinary adaptation it comes at least the cooldown
  // after the earlier one, and if it goes back to the displaced path, at least
  // the hold-down the earlier one armed.
  lemma ConsecutiveMovesAreSpaced(
    s: State, e1: Event, m1: Move, es: seq<Event>, e2: Event, m2: Move, p: Id, sem: Semantics, limits: Limits)
    requires StateOk(s) && HasSemantics(s, p, sem) && NoWrap(sem) && Within(s, e1, p, limits)
    requires sem.dampening.enabled ==> TimingOf(s, p).penalty <= sem.dampening.maxPenalty
    requires MoveOf(s, e1, p, limits) == Some(m1) && m1.Adapts()
    requires QuietAfter(s, e1, es, p, limits)
    requires MoveOf(Exec(After(s, e1, limits), es, limits), e2, p, limits) == Some(m2) && m2.kind.Ordinary?
    requires m1.at + sem.cooldown < TWO_64 && m1.at + HoldDownOf(sem, TimingOf(s, p).penalty, m1) < TWO_64
    ensures sem.cooldown != 0 ==> m2.at >= m1.at + sem.cooldown
    ensures m2.to == m1.from && HoldDownOf(sem, TimingOf(s, p).penalty, m1) != 0 ==>
              m2.at >= m1.at + HoldDownOf(sem, TimingOf(s, p).penalty, m1)
  {
    hide After, MoveOf, Within, StateOk, StandingOf, TimingOf, RunWithin, MovesOf, Exec, ChurnExhausted, HasSemantics,
         TimersAfter, VerifiedHoldDown, HoldDownOf;
    var t := After(s, e1, limits);
    StepTimers(s, e1, p, sem, limits);
    HasPolicy(s, p, sem);
    ValidSemantics(s, p, sem);
    StepShifts(s, e1, p, limits);
    StepOk(s, e1, limits);
    QuietRun(t, es, p, sem, limits);
    OrdinaryWaits(Exec(t, es, limits), e2, p, m2, sem, limits);
    DisplacedIsValid(s, e1, p, m1, limits);
    ArmedTimers(sem, TimingOf(s, p), m1, limits);
  }

  ghost predicate QuietAfter(s: State, e: Event, es: seq<Event>, p: Id, limits: Limits)
  {
    RunWithin(After(s, e, limits), es, p, limits) && MovesOf(After(s, e, limits), es, p, limits) == []
  }

  lemma ValidSemantics(s: State, p: Id, sem: Semantics)
    ensures StateOk(s) && HasSemantics(s, p, sem) ==> sem.Valid()
  {
    hide AnchorOk, BindingsOk;
  }

  lemma DisplacedIsValid(s: State, e: Event, p: Id, m: Move, limits: Limits)
    requires StateOk(s) && p in s.policies && MoveOf(s, e, p, limits) == Some(m) && m.Adapts()
    ensures ValidId(m.from)
  {
    hide CommitRefusal, VerifyRefusal, RollbackRefusal;
    if RollsBack(s, e, p) {
      RestoreHasTarget(s.policies[p]);
    }
  }

  lemma ArmedTimers(sem: Semantics, t: Timing, m: Move, limits: Limits)
    requires sem.Valid() && NoWrap(sem) && m.Adapts()
    requires sem.dampening.enabled ==> t.penalty <= sem.dampening.maxPenalty
    requires m.at + sem.cooldown < TWO_64 && m.at + HoldDownOf(sem, t.penalty, m) < TWO_64
    ensures var a := TimersAfter(sem, t, m, limits);
            && (sem.cooldown != 0 ==> a.cooldownActive && a.cooldownDeadline == m.at + sem.cooldown)
            && (HoldDownOf(sem, t.penalty, m) != 0 ==>
                  a.holdDownActive && a.holdDownDeadline == m.at + HoldDownOf(sem, t.penalty, m)
                  && VerifiedHoldDown(sem, a.penalty) != 0)
  {
    hide Escalated, NoWrap, Semantics.FirstDefect;
    SmallMod(m.at + sem.cooldown);
    SmallMod(m.at + HoldDownOf(sem, t.penalty, m));
    ArmedLaw(sem, t.penalty);
    ArmedLaw(sem, RaisedPenalty(sem.dampening, t.penalty));
  }
}
