// Adaptation policies: lifecycle, scope, trigger rules and their validation
// (src/lifecycle.cpp, src/policy.cpp, src/authority.cpp).

module Policy {
  import opened Base
  import opened Metrics
  import opened Scoring
  import opened Evidence
  import opened Outcomes

  // ------------------------------------------------------------------------
  // Lifecycle
  // ------------------------------------------------------------------------

  datatype Lifecycle = Declared | Active | Suspended | NeedsRevalidation | Revoked | Superseded | Retired
  {
    predicate Terminal() { Revoked? || Superseded? || Retired? }

    function Raw(): byte
    {
      match this
      case Declared => 1
      case Active => 2
      case Suspended => 3
      case NeedsRevalidation => 4
      case Revoked => 5
      case Superseded => 6
      case Retired => 7
    }

    // The outcome reported for a request that needed an active policy.
    function Refused(): Outcome
    {
      match this
      case Declared => SUSPENDED
      case Active => NO_CHANGE
      case Suspended => SUSPENDED
      case NeedsRevalidation => REVALIDATION_REQUIRED
      case Revoked => REVOKED
      case Superseded => POLICY_SUPERSEDED
      case Retired => RETIRED
    }
  }

  datatype LifecycleEvent = Activate | Suspend | Resume | RequireRevalidation | Revalidate | Revoke | Supersede | Retire

  function NextLifecycle(state: Lifecycle, event: LifecycleEvent): Option<Lifecycle>
  {
    if state.Terminal() then None
    else
      match event
      case Activate => if state.Declared? then Some(Active) else None
      case Suspend => if state.Active? || state.NeedsRevalidation? then Some(Suspended) else None
      case Resume => if state.Suspended? then Some(Active) else None
      case RequireRevalidation => if state.NeedsRevalidation? then None else Some(NeedsRevalidation)
      case Revalidate => if state.NeedsRevalidation? then Some(Active) else None
      case Revoke => Some(Revoked)
      case Supersede => Some(Superseded)
      case Retire => Some(Retired)
  }

  // A refused event leaves the lifecycle as it is.
  function Advance(state: Lifecycle, event: LifecycleEvent): Lifecycle
  {
    match NextLifecycle(state, event)
    case None => state
    case Some(next) => next
  }

  function LifecycleAfter(state: Lifecycle, es: seq<LifecycleEvent>): Lifecycle
    decreases |es|
  {
    if es == [] then state else LifecycleAfter(Advance(state, es[0]), es[1..])
  }

  predicate Ends(e: LifecycleEvent) { e.Revoke? || e.Supersede? || e.Retire? }

  // RESUME comes after neither an end nor a demand for revalidation.
  ghost predicate Resumes(es: seq<LifecycleEvent>)
  {
    exists j :: 0 <= j < |es| && ResumesAt(es, 0, j)
  }

  ghost predicate ResumesAt(es: seq<LifecycleEvent>, from: nat, j: nat)
  {
    && from <= j < |es| && es[j].Resume?
    && (forall k :: 0 <= k < j ==> !Ends(es[k])) && (forall k :: from <= k < j ==> !es[k].RequireRevalidation?)
  }

  // Some SUSPEND is followed by such a RESUME.
  ghost predicate Bypasses(es: seq<LifecycleEvent>)
  {
    exists i, j :: 0 <= i < j < |es| && BypassesAt(es, i, j)
  }

  ghost predicate BypassesAt(es: seq<LifecycleEvent>, i: nat, j: nat)
  {
    i < j < |es| && es[i].Suspend? && ResumesAt(es, i + 1, j)
  }

  ghost predicate Serves(state: Lifecycle, es: seq<LifecycleEvent>)
  {
    exists n :: 0 <= n <= |es| && LifecycleAfter(state, es[..n]).Active?
  }

  lemma ServesStep(state: Lifecycle, es: seq<LifecycleEvent>)
    requires es != []
    ensures Serves(state, es) <==> state.Active? || Serves(Advance(state, es[0]), es[1..])
  {
    if Serves(state, es) {
      var n :| 0 <= n <= |es| && LifecycleAfter(state, es[..n]).Active?;
      if n > 0 {
        assert es[..n][1..] == es[1..][..n - 1];
      }
    }
    if state.Active? {
      assert LifecycleAfter(state, es[..0]).Active?;
    }
    if Serves(Advance(state, es[0]), es[1..]) {
      var n :| 0 <= n <= |es[1..]| && LifecycleAfter(Advance(state, es[0]), es[1..][..n]).Active?;
      assert es[..n + 1][1..] == es[1..][..n];
      assert LifecycleAfter(state, es[..n + 1]).Active?;
    }
  }

  lemma ResumesStep(es: seq<LifecycleEvent>)
    requires es != []
    ensures Resumes(es) <==>
      es[0].Resume? || (!Ends(es[0]) && !es[0].RequireRevalidation? && Resumes(es[1..]))
  {
    if Resumes(es) {
      var j :| 0 <= j < |es| && ResumesAt(es, 0, j);
      if j > 0 {
        assert ResumesAt(es[1..], 0, j - 1);
      }
    }
    if es[0].Resume? {
      assert ResumesAt(es, 0, 0);
    } else if !Ends(es[0]) && !es[0].RequireRevalidation? && Resumes(es[1..]) {
      var j :| 0 <= j < |es[1..]| && ResumesAt(es[1..], 0, j);
      assert forall k :: 1 <= k < j + 1 ==> es[k] == es[1..][k - 1];
      assert ResumesAt(es, 0, j + 1);
    }
  }

  lemma BypassesStep(es: seq<LifecycleEvent>)
    requires es != []
    ensures Bypasses(es) <==> !Ends(es[0]) && (Bypasses(es[1..]) || (es[0].Suspend? && Resumes(es[1..])))
  {
    if Bypasses(es) {
      var i, j :| 0 <= i < j < |es| && BypassesAt(es, i, j);
      if i > 0 {
        assert BypassesAt(es[1..], i - 1, j - 1);
      } else {
        assert ResumesAt(es[1..], 0, j - 1);
      }
    }
    if !Ends(es[0]) {
      if Bypasses(es[1..]) {
        var i, j :| 0 <= i < j < |es[1..]| && BypassesAt(es[1..], i, j);
        assert forall k :: 1 <= k < |es| ==> es[k] == es[1..][k - 1];
        assert BypassesAt(es, i + 1, j + 1);
      }
      if es[0].Suspend? && Resumes(es[1..]) {
        var j :| 0 <= j < |es[1..]| && ResumesAt(es[1..], 0, j);
        assert forall k :: 1 <= k < |es| ==> es[k] == es[1..][k - 1];
        assert BypassesAt(es, 0, j + 1);
      }
    }
  }

  lemma {:induction false} TerminalNeverServes(state: Lifecycle, es: seq<LifecycleEvent>)
    requires state.Terminal()
    ensures !Serves(state, es)
  {
    if es != [] {
      ServesStep(state, es);
      TerminalNeverServes(state, es[1..]);
    }
  }

  lemma {:induction false} ServiceByResuming(es: seq<LifecycleEvent>)
    requires forall k :: 0 <= k < |es| ==> !es[k].Revalidate?
    ensures Serves(NeedsRevalidation, es) <==> Bypasses(es)
    ensures Serves(Suspended, es) <==> Resumes(es) || Bypasses(es)
  {
    if es != [] {
      hide Serves, Resumes, Bypasses;
      ServesStep(NeedsRevalidation, es);
      ServesStep(Suspended, es);
      ServesStep(Active, es);
      ResumesStep(es);
      BypassesStep(es);
      ServiceByResuming(es[1..]);
      TerminalNeverServes(Revoked, es[1..]);
      TerminalNeverServes(Superseded, es[1..]);
      TerminalNeverServes(Retired, es[1..]);
      ActiveServes(es[1..]);
    }
  }

  lemma ActiveServes(es: seq<LifecycleEvent>)
    ensures Serves(Active, es)
  {
    assert LifecycleAfter(Active, es[..0]).Active?;
  }

  // The documentation says that a policy awaiting revalidation returns to
  // service only when revalidation succeeds. It holds of a sequence of events
  // without REVALIDATE unless the sequence suspends the policy and resumes it
  // later, with no demand for revalidation in between and no end before.
  lemma RevalidationCanBeBypassed(es: seq<LifecycleEvent>)
    requires forall k :: 0 <= k < |es| ==> !es[k].Revalidate?
    ensures (exists n :: 0 <= n <= |es| && LifecycleAfter(NeedsRevalidation, es[..n]).Active?) <==> Bypasses(es)
  {
    ServiceByResuming(es);
  }

  // ------------------------------------------------------------------------
  // Scope and target
  // ------------------------------------------------------------------------

  datatype PolicyScope = PolicyScope(
    fabric: Id, namespace: Id, site: Option<Id>, pathClass: Id, routes: seq<Id>, sets: seq<Id>)
  {
    predicate WellFormed()
    {
      ValidId(fabric) && ValidId(namespace) && NoDuplicates(routes) && NoDuplicates(sets)
    }

    // An unknown site never satisfies a site restriction, and an empty route
    // list admits every route of the namespace.
    predicate CoversRoute(siteOf: Id, route: Id)
    {
      (site.Some? ==> siteOf == site.value) && (routes == [] || route in routes)
    }

    predicate CoversPathClass(class_: Id) { !ValidId(pathClass) || class_ == pathClass }
  }

  datatype AuthorityScope = AuthorityScope(fabric: Id, namespace: Id, routes: seq<Id>, sets: seq<Id>)
  {
    predicate WellFormed()
    {
      ValidId(fabric) && ValidId(namespace) && NoDuplicates(routes) && NoDuplicates(sets)
    }

    predicate CoversRoute(fabric_: Id, namespace_: Id, route: Id)
    {
      fabric == fabric_ && namespace == namespace_ && (routes == [] || route in routes)
    }

    predicate CoversSet(set_: Id) { sets == [] || set_ in sets }
  }

  datatype Target = Target(route: Id, multipath: Option<Id>)

  // ------------------------------------------------------------------------
  // Trigger rules
  // ------------------------------------------------------------------------

  datatype ThresholdRule = ThresholdRule(kind: MetricKind, switch_: MetricValue, clear: MetricValue)
  {
    // The clear value is strictly better than the switch value.
    predicate Valid()
    {
      && switch_.Metric? && clear.Metric? && switch_.kind == kind && clear.kind == kind
      && Better(kind, clear.value, switch_.value)
    }

    // The current path may be left only when it is at least this bad.
    predicate PermitsDeparture(current: Reading)
    {
      if current.kind.LowerIsBetter() then current.value >= switch_.Amount() else current.value <= switch_.Amount()
    }

    // A candidate may be entered only when it is at least this good.
    predicate PermitsEntry(candidate: Reading)
    {
      if candidate.kind.LowerIsBetter() then candidate.value <= clear.Amount() else candidate.value >= clear.Amount()
    }

    function Width(): nat
      requires Valid()
    {
      Badness(switch_) - Badness(clear)
    }
  }

  datatype ImprovementRule = ImprovementRule(kind: MetricKind, forward: u32, reverse: u32)
  {
    predicate Valid()
    {
      forward <= BASIS_POINTS && reverse <= BASIS_POINTS && (forward != 0 || reverse != 0)
    }
  }

  // The decay parameters are validated and stored but never applied.
  datatype Dampening = Dampening(
    enabled: bool, increment: u32, maxPenalty: u32, decayInterval: Ticks, decayStep: u32,
    escalation: Ticks, maxHoldDown: Ticks)
  {
    predicate Valid()
    {
      if !enabled then
        && increment == 0 && maxPenalty == 0 && decayInterval == 0 && decayStep == 0
        && escalation == 0 && maxHoldDown == 0
      else
        && increment != 0 && increment <= maxPenalty && decayInterval != 0 && decayStep != 0
        && escalation != 0 && maxHoldDown != 0
    }
  }

  datatype Churn = Churn(max: u32, window: Ticks)
  {
    predicate Enabled() { max != 0 }
    predicate Valid() { Enabled() ==> window != 0 }
  }

  datatype Emergency = Emergency(enabled: bool, unauthorized: bool, unavailable: bool, hardFailure: bool)
  {
    predicate Valid() { enabled ==> unauthorized || unavailable || hardFailure }
  }

  datatype Priority = Priority(path: Id, priority: u32)

  const POLICY_SEMANTICS_VERSION: u32 := 1

  // What is wrong with a policy: band defects are reported apart from others.
  datatype Defect = NoDefect | BandDefect | OtherDefect
  {
    function Refused(): Outcome { if BandDefect? then INVALID_HYSTERESIS else MALFORMED_REQUEST }
  }

  datatype Semantics = Semantics(
    version: u32, target: Target, thresholds: seq<ThresholdRule>, improvements: seq<ImprovementRule>,
    evidence: seq<Requirement>, holdDown: Ticks, cooldown: Ticks, dampening: Dampening, churn: Churn,
    objective: Objective, emergency: Emergency, priorities: seq<Priority>)
  {
    predicate Covers(kind: MetricKind)
    {
      exists i :: 0 <= i < |evidence| && evidence[i].kind == kind
    }

    predicate BandsValid() { forall i :: 0 <= i < |thresholds| ==> thresholds[i].Valid() }

    predicate BandKindsDistinct()
    {
      forall i, j :: 0 <= i < j < |thresholds| ==> thresholds[i].kind != thresholds[j].kind
    }

    predicate BandsCovered() { forall i :: 0 <= i < |thresholds| ==> Covers(thresholds[i].kind) }

    predicate ImprovementsValid()
    {
      && (forall i :: 0 <= i < |improvements| ==> improvements[i].Valid())
      && (forall i, j :: 0 <= i < j < |improvements| ==> improvements[i].kind != improvements[j].kind)
    }

    predicate EvidenceValid()
    {
      && evidence != []
      && (forall i :: 0 <= i < |evidence| ==> evidence[i].Valid())
      && (forall i, j :: 0 <= i < j < |evidence| ==> evidence[i].kind != evidence[j].kind)
    }

    predicate TimersValid()
    {
      && dampening.Valid()
      && (dampening.enabled ==> holdDown != 0 && dampening.maxHoldDown >= holdDown)
      && churn.Valid()
    }

    predicate PrioritiesValid()
    {
      && (forall i :: 0 <= i < |priorities| ==> ValidId(priorities[i].path))
      && (forall i, j :: 0 <= i < j < |priorities| ==> priorities[i].path != priorities[j].path)
    }

    predicate ImprovementsCovered() { forall i :: 0 <= i < |improvements| ==> Covers(improvements[i].kind) }

    predicate ObjectiveCovered() { forall i :: 0 <= i < |objective.terms| ==> Covers(objective.terms[i].kind) }

    // The first defect, in the order the source checks them.
    function FirstDefect(): Defect
    {
      if version != POLICY_SEMANTICS_VERSION || !ValidId(target.route) then OtherDefect
      else if thresholds == [] && improvements == [] then OtherDefect
      else if !BandsValid() then BandDefect
      else if !ImprovementsValid() then OtherDefect
      else if !BandKindsDistinct() then BandDefect
      else if !EvidenceValid() || !TimersValid() || !objective.Valid() then OtherDefect
      else if !emergency.Valid() || !PrioritiesValid() || !ImprovementsCovered() then OtherDefect
      else if !BandsCovered() then BandDefect
      else if !ObjectiveCovered() then OtherDefect
      else NoDefect
    }

    predicate Valid() { FirstDefect().NoDefect? }
  }

  // ------------------------------------------------------------------------
  // Explicit priority and the requirement of a kind
  // ------------------------------------------------------------------------

  function PriorityOf(priorities: seq<Priority>, path: Id): u32
  {
    if priorities == [] then 0
    else if priorities[0].path == path then priorities[0].priority
    else PriorityOf(priorities[1..], path)
  }

  function RequirementFor(evidence: seq<Requirement>, kind: MetricKind): (r: Option<Requirement>)
    ensures r.Some? ==> r.value in evidence && r.value.kind == kind
    ensures r.None? ==> forall i :: 0 <= i < |evidence| ==> evidence[i].kind != kind
  {
    if evidence == [] then None
    else if evidence[0].kind == kind then Some(evidence[0])
    else RequirementFor(evidence[1..], kind)
  }

  // A path that is bad enough to be left can never be good enough to be
  // entered: the band separates the two by its whole width, and it is never
  // degenerate.
  lemma BandSeparates(rule: ThresholdRule, left: Reading, entered: Reading)
    requires rule.Valid() && left.kind == rule.kind == entered.kind
    requires rule.PermitsDeparture(left) && rule.PermitsEntry(entered)
    ensures Badness(left) - Badness(entered) >= rule.Width() >= 1
  {
  }
}
