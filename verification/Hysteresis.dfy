// No flapping without real oscillation: the ledger of a hysteresis band over
// runs of adjacent evaluations.

module Hysteresis {
  import opened Base
  import opened Metrics
  import Aggregation
  import opened Evidence
  import opened Outcomes
  import opened Policy
  import opened Records
  import opened Ranking
  import opened Evaluation
  import opened Fabric
  import opened Runs
  import opened Moves
  import opened Invariants
  import opened Timers
  import Fencing

  // ------------------------------------------------------------------------
  // What an eligible verdict proves
  // ------------------------------------------------------------------------

  lemma {:induction false} BandHeld(
    rules: seq<ThresholdRule>, rs: seq<Requirement>, evidence: Snapshot, current: Id, best: Id, now: Ticks, k: nat)
    requires BandStop(rules, rs, evidence, current, best, now).None? && k < |rules|
    ensures RequirementFor(rs, rules[k].kind).Some?
    ensures var r := RequirementFor(rs, rules[k].kind).value;
            OneBandStop(rules[k], LookUp(evidence, current, r, now), LookUp(evidence, best, r, now)).None?
  {
    if k > 0 {
      BandHeld(rules[1..], rs, evidence, current, best, now, k - 1);
    }
  }

  lemma {:induction false} EntryHeld(
    rules: seq<ThresholdRule>, rs: seq<Requirement>, evidence: Snapshot, best: Id, now: Ticks, k: nat)
    requires EntryStop(rules, rs, evidence, best, now).None? && k < |rules|
    ensures RequirementFor(rs, rules[k].kind).Some?
    ensures var found := LookUp(evidence, best, RequirementFor(rs, rules[k].kind).value, now);
            found.Found? && rules[k].PermitsEntry(found.value)
  {
    if k > 0 {
      EntryHeld(rules[1..], rs, evidence, best, now, k - 1);
    }
  }

  // An eligible verdict without emergency has passed every ordinary check.
  lemma EligibleMeans(i: Inputs)
    requires Decide(i).lifecycle == ELIGIBLE
    ensures !i.preference.established ==>
      EntryStop(i.semantics.thresholds, i.semantics.evidence, i.evidence, Decide(i).target, i.now).None?
    ensures i.preference.established && !Decide(i).emergency ==> OrdinaryStop(i, Decide(i).target).None?
    ensures i.preference.established ==> Decide(i).target != i.preference.preferred
  {
    hide Judged, Ranked, FirstEligible, OrdinaryStop, EntryStop, Proposal, IncumbentStop, EmergencyHolds;
  }

  // ------------------------------------------------------------------------
  // Badness of a path as the store resolves it
  // ------------------------------------------------------------------------

  ghost function BadnessOf(s: State, path: Id, r: Requirement): int
  {
    match AggregateFor(s.evidence, path, r)
    case None => 0
    case Some(v) => if v.value.Metric? then Badness(v.value) else 0
  }

  lemma ResolvedKind(store: Store, path: Id, r: Requirement)
    ensures AggregateFor(store, path, r).Some? ==>
      AggregateFor(store, path, r).value.value.Metric? && AggregateFor(store, path, r).value.value.kind == r.kind
  {
    hide Aggregation.Aggregate, InObservationOrder, Chosen;
  }

  // Whatever an evaluation finds is what the store resolves.
  lemma FoundIsResolved(s: State, p: Id, path: Id, kind: MetricKind, now: Ticks)
    requires p in s.policies && PolicyOk(s.policies[p])
    requires RequirementFor(s.policies[p].policy.semantics.evidence, kind).Some?
    ensures var r := RequirementFor(s.policies[p].policy.semantics.evidence, kind).value;
            var found := LookUp(InputsOf(s, p, now).evidence, path, r, now);
            found.Found? ==> found.value.kind == kind && BadnessOf(s, path, r) == Badness(found.value)
  {
    hide AggregateFor, Captured, AnchorOk;
    var sem := s.policies[p].policy.semantics;
    var r := RequirementFor(sem.evidence, kind).value;
    assert sem.EvidenceValid();
    LessIsDistinct(s.policies[p].candidates);
    SnapshotIsExact(s.evidence, s.policies[p].candidates, sem.evidence, Slot(path, kind));
    ResolvedKind(s.evidence, path, r);
  }

  lemma LessIsDistinct(cs: seq<Candidate>)
    requires Sorted(cs)
    ensures forall i, j :: 0 <= i < j < |cs| ==> PathOf(cs[i]) != PathOf(cs[j])
  {
    forall i, j | 0 <= i < j < |cs|
      ensures PathOf(cs[i]) != PathOf(cs[j])
    {
      LessIrreflexive(PathOf(cs[i]));
    }
  }

  // ------------------------------------------------------------------------
  // Adjacent evaluations
  // ------------------------------------------------------------------------

  // The ticket a commit presents was begun on the very state it commits on.
  ghost predicate Adjacent(s: State, e: Event, p: Id)
  {
    e.op.Commit? && e.op.ticket.dependencies.policy == p ==>
      exists begun :: e.op.ticket == Begin(s, p, e.op.context, e.op.ticket.decision, begun)
  }

  // Every commit on the policy is adjacent, none is an emergency and nothing is
  // rolled back.
  ghost predicate Ordinarily(s: State, es: seq<Event>, p: Id, limits: Limits)
    decreases |es|
  {
    es != [] ==>
      && Adjacent(s, es[0], p)
      && (MoveOf(s, es[0], p, limits).Some? ==>
            var k := MoveOf(s, es[0], p, limits).value.kind; k.Ordinary? || k.Establishment?)
      && Ordinarily(After(s, es[0], limits), es[1..], p, limits)
  }

  // A band of the policy and the requirement its metric is resolved by.
  ghost predicate DeclaresBand(sem: Semantics, rule: ThresholdRule, r: Requirement)
  {
    rule in sem.thresholds && RequirementFor(sem.evidence, rule.kind) == Some(r)
  }

  lemma VerdictCrossesBand(s: State, p: Id, begun: Ticks, rule: ThresholdRule, r: Requirement)
    requires p in s.policies && PolicyOk(s.policies[p]) && DeclaresBand(s.policies[p].policy.semantics, rule, r)
    requires Decide(InputsOf(s, p, begun)).lifecycle == ELIGIBLE
    ensures var v := Decide(InputsOf(s, p, begun));
            && (!s.policies[p].preference.established ==> BadnessOf(s, v.target, r) <= Badness(rule.clear))
            && (s.policies[p].preference.established && !v.emergency ==>
                  && BadnessOf(s, v.target, r) <= Badness(rule.clear)
                  && BadnessOf(s, s.policies[p].preference.preferred, r) >= Badness(rule.switch_))
  {
    hide Decide, InputsOf, BadnessOf, AnchorOk, BindingsOk, Captured, LookUp, TimerStop, ImprovementStop, ChurnStop;
    var i := InputsOf(s, p, begun);
    var rec := s.policies[p];
    var sem := rec.policy.semantics;
    var target := Decide(i).target;
    var k :| 0 <= k < |sem.thresholds| && sem.thresholds[k] == rule;
    InputsAre(s, p, begun);
    EligibleMeans(i);
    assert rule.Valid() by { assert sem.BandsValid(); }
    FoundIsResolved(s, p, target, rule.kind, begun);
    FoundIsResolved(s, p, rec.preference.preferred, rule.kind, begun);
    if !rec.preference.established {
      EntryHeld(sem.thresholds, sem.evidence, i.evidence, target, begun, k);
    } else if !Decide(i).emergency {
      BandHeld(sem.thresholds, sem.evidence, i.evidence, rec.preference.preferred, target, begun, k);
    }
  }

  lemma InputsAre(s: State, p: Id, now: Ticks)
    requires p in s.policies
    ensures var i, r := InputsOf(s, p, now), s.policies[p];
            i.semantics == r.policy.semantics && i.preference == r.preference && i.now == now
            && i.timing == r.timing && i.candidates == r.candidates
            && i.evidence == Captured(s.evidence, r.candidates, r.policy.semantics.evidence)
  {
  }

  // A move of an adjacent evaluation enters below the band, and leaves only
  // from above it.
  lemma MoveCrossesBand(s: State, e: Event, p: Id, m: Move, rule: ThresholdRule, r: Requirement, limits: Limits)
    requires p in s.policies && PolicyOk(s.policies[p]) && DeclaresBand(s.policies[p].policy.semantics, rule, r)
    requires Adjacent(s, e, p) && MoveOf(s, e, p, limits) == Some(m) && (m.kind.Ordinary? || m.kind.Establishment?)
    ensures BadnessOf(s, m.to, r) <= Badness(rule.clear)
    ensures m.kind.Ordinary? ==> BadnessOf(s, m.from, r) >= Badness(rule.switch_)
  {
    hide CommitRefusal, VerifyRefusal, BadnessOf, PolicyOk, InputsOf, Decide, RollbackRefusal, RestoreRefusal, Begin;
    var begun :| e.op.ticket == Begin(s, p, e.op.context, e.op.ticket.decision, begun);
    Fencing.CommitAccepted(s, e.op.ticket, e.op.context, e.op.fingerprint);
    Fencing.BeginFacts(s, p, e.op.context, e.op.ticket.decision, begun);
    VerdictCrossesBand(s, p, begun, rule, r);
  }

  // ------------------------------------------------------------------------
  // The ledger
  // ------------------------------------------------------------------------

  ghost function OrdinaryMoves(ms: seq<Move>): nat
  {
    if ms == [] then 0 else (if ms[0].kind.Ordinary? then 1 else 0) + OrdinaryMoves(ms[1..])
  }

  // What the current path's badness was when it was entered, after a step.
  ghost function EntryAfter(s: State, m: Option<Move>, entry: int, r: Requirement): int
  {
    match m
    case None => entry
    case Some(move) => BadnessOf(s, move.to, r)
  }

  // How much worse the paths that were left had become between their entry and
  // their departure, summed over the run.
  ghost function Worsening(s: State, es: seq<Event>, p: Id, r: Requirement, entry: int, limits: Limits): int
    decreases |es|
  {
    if es == [] then 0
    else
      var m := MoveOf(s, es[0], p, limits);
      (if m.Some? && m.value.kind.Ordinary? then BadnessOf(s, m.value.from, r) - entry else 0)
      + Worsening(After(s, es[0], limits), es[1..], p, r, EntryAfter(s, m, entry, r), limits)
  }

  ghost predicate EnteredBelow(s: State, p: Id, rule: ThresholdRule, entry: int)
  {
    p in s.policies && rule.Valid() && (s.policies[p].preference.established ==> entry <= Badness(rule.clear))
  }

  // For every declared band: the number of adaptations times the width of the
  // band is at most the summed worsening of the paths that were left.
  lemma {:induction false} FlappingIsPaidFor(
    s: State, es: seq<Event>, p: Id, sem: Semantics, rule: ThresholdRule, r: Requirement, entry: int, limits: Limits)
    requires StateOk(s) && HasSemantics(s, p, sem) && DeclaresBand(sem, rule, r) && rule.Valid()
    requires RunWithin(s, es, p, limits) && Ordinarily(s, es, p, limits)
    requires EnteredBelow(s, p, rule, entry)
    ensures OrdinaryMoves(MovesOf(s, es, p, limits)) * rule.Width() <= Worsening(s, es, p, r, entry, limits)
    decreases |es|
  {
    hide After, MoveOf, Within, StateOk, HasSemantics, BadnessOf, Adjacent, EnteredBelow;
    if es != [] {
      var t := After(s, es[0], limits);
      var m := MoveOf(s, es[0], p, limits);
      StepTimers(s, es[0], p, sem, limits);
      StepOk(s, es[0], limits);
      StepEntry(s, es[0], p, m, sem, rule, r, entry, limits);
      FlappingIsPaidFor(t, es[1..], p, sem, rule, r, EntryAfter(s, m, entry, r), limits);
      var n := OrdinaryMoves(MovesOf(t, es[1..], p, limits));
      assert (n + 1) * rule.Width() == n * rule.Width() + rule.Width();
    }
  }

  lemma StepEntry(
    s: State, e: Event, p: Id, m: Option<Move>, sem: Semantics, rule: ThresholdRule, r: Requirement, entry: int,
    limits: Limits)
    requires StateOk(s) && HasSemantics(s, p, sem) && DeclaresBand(sem, rule, r) && rule.Valid()
    requires Within(s, e, p, limits) && Adjacent(s, e, p) && EnteredBelow(s, p, rule, entry)
    requires m == MoveOf(s, e, p, limits) && (m.Some? ==> m.value.kind.Ordinary? || m.value.kind.Establishment?)
    ensures EnteredBelow(After(s, e, limits), p, rule, EntryAfter(s, m, entry, r))
    ensures m.Some? && m.value.kind.Ordinary? ==> BadnessOf(s, m.value.from, r) - entry >= rule.Width()
  {
    hide After, MoveOf, Within, BadnessOf, Adjacent, TimersAfter;
    StepMoves(s, e, p, limits);
    if m.Some? {
      MoveCrossesBand(s, e, p, m.value, rule, r, limits);
    }
  }

  // ------------------------------------------------------------------------
  // Constant evidence
  // ------------------------------------------------------------------------

  // The badness of every path stays at its level through the whole run.
  ghost predicate Level(s: State, es: seq<Event>, r: Requirement, level: Id -> int, limits: Limits)
    decreases |es|
  {
    (forall path :: BadnessOf(s, path, r) == level(path))
    && (es != [] ==> Level(After(s, es[0], limits), es[1..], r, level, limits))
  }

  ghost predicate EnteredAt(s: State, p: Id, level: Id -> int, entry: int)
  {
    p in s.policies && (s.policies[p].preference.established ==> entry == level(s.policies[p].preference.preferred))
  }

  lemma {:induction false} LevelEvidenceWorsensNothing(
    s: State, es: seq<Event>, p: Id, sem: Semantics, r: Requirement, level: Id -> int, entry: int, limits: Limits)
    requires StateOk(s) && HasSemantics(s, p, sem) && RunWithin(s, es, p, limits)
    requires Level(s, es, r, level, limits) && EnteredAt(s, p, level, entry)
    ensures Worsening(s, es, p, r, entry, limits) == 0
    decreases |es|
  {
    hide After, MoveOf, Within, StateOk, HasSemantics, BadnessOf, EnteredAt;
    if es != [] {
      var m := MoveOf(s, es[0], p, limits);
      StepTimers(s, es[0], p, sem, limits);
      StepOk(s, es[0], limits);
      StepLevel(s, es[0], p, sem, level, entry, limits);
      LevelEvidenceWorsensNothing(After(s, es[0], limits), es[1..], p, sem, r, level, EntryAfter(s, m, entry, r),
                                  limits);
    }
  }

  lemma StepLevel(s: State, e: Event, p: Id, sem: Semantics, level: Id -> int, entry: int, limits: Limits)
    requires StateOk(s) && HasSemantics(s, p, sem) && Within(s, e, p, limits) && EnteredAt(s, p, level, entry)
    ensures match MoveOf(s, e, p, limits)
            case None => EnteredAt(After(s, e, limits), p, level, entry)
            case Some(m) =>
              EnteredAt(After(s, e, limits), p, level, level(m.to)) && (m.kind.Ordinary? ==> level(m.from) == entry)
  {
    hide After, MoveOf, Within, TimersAfter;
    StepMoves(s, e, p, limits);
  }

  // With level evidence a policy that declares a band never adapts again once
  // it is established.
  lemma LevelEvidenceNeverFlaps(
    s: State, es: seq<Event>, p: Id, sem: Semantics, rule: ThresholdRule, r: Requirement, level: Id -> int,
    limits: Limits)
    requires StateOk(s) && HasSemantics(s, p, sem) && DeclaresBand(sem, rule, r) && rule.Valid()
    requires p in s.policies && !s.policies[p].preference.established
    requires RunWithin(s, es, p, limits) && Ordinarily(s, es, p, limits) && Level(s, es, r, level, limits)
    ensures OrdinaryMoves(MovesOf(s, es, p, limits)) == 0
  {
    hide After, MoveOf, Within, StateOk, HasSemantics, BadnessOf, Exec, RunWithin, Ordinarily, Level, MovesOf;
    FlappingIsPaidFor(s, es, p, sem, rule, r, 0, limits);
    LevelEvidenceWorsensNothing(s, es, p, sem, r, level, 0, limits);
    var n := OrdinaryMoves(MovesOf(s, es, p, limits));
    MulMonotone(1, rule.Width(), n);
  }
}
