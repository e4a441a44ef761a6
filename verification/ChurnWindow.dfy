// The churn bound over sliding windows: a trimmed deque of recent stamps decides
// like the full history would.

module ChurnWindow {
  import opened Base
  import opened Outcomes
  import opened Policy
  import opened Records
  import opened Evaluation
  import opened Fabric
  import opened Runs
  import opened Moves
  import opened Invariants
  import opened Anchor
  import opened Timers

  // ------------------------------------------------------------------------
  // Stamps
  // ------------------------------------------------------------------------

  ghost predicate Ascending(stamps: seq<Ticks>)
  {
    forall i, j :: 0 <= i < j < |stamps| ==> stamps[i] <= stamps[j]
  }

  ghost predicate NotAfter(stamps: seq<Ticks>, now: Ticks)
  {
    forall i :: 0 <= i < |stamps| ==> stamps[i] <= now
  }

  // The deque holds the end of the history: all of it, or at least cap stamps.
  ghost predicate Retains(deque: seq<Ticks>, history: seq<Ticks>, cap: nat)
  {
    && |deque| <= |history| && deque == history[|history| - |deque|..]
    && |deque| >= Min(|history|, cap)
  }

  lemma {:induction false} RecentOfConcat(a: seq<Ticks>, b: seq<Ticks>, now: Ticks, window: Ticks)
    ensures Recent(a + b, now, window) == Recent(a, now, window) + Recent(b, now, window)
  {
    if b == [] {
      assert a + b == a;
    } else {
      assert (a + b)[..|a + b| - 1] == a + b[..|b| - 1];
      RecentOfConcat(a, b[..|b| - 1], now, window);
    }
  }

  lemma {:induction false} RecentBounds(s: seq<Ticks>, now: Ticks, window: Ticks)
    ensures Recent(s, now, window) <= |s|
    ensures (forall i :: 0 <= i < |s| ==> InWindow(s[i], now, window)) ==> Recent(s, now, window) == |s|
    ensures (forall i :: 0 <= i < |s| ==> !InWindow(s[i], now, window)) ==> Recent(s, now, window) == 0
  {
    if s != [] {
      RecentBounds(s[..|s| - 1], now, window);
    }
  }

  // Counting only the retained stamps answers the same question as counting
  // the whole history, as long as the bound does not exceed the deque's cap.
  lemma DequeDecidesLikeHistory(
    deque: seq<Ticks>, history: seq<Ticks>, now: Ticks, window: Ticks, max: nat, cap: nat)
    requires Retains(deque, history, cap) && Ascending(history) && NotAfter(history, now) && max <= cap
    ensures Recent(deque, now, window) >= max <==> Recent(history, now, window) >= max
  {
    var lost := history[..|history| - |deque|];
    assert history == lost + deque;
    RecentOfConcat(lost, deque, now, window);
    RecentBounds(deque, now, window);
    if Recent(deque, now, window) < |deque| {
      var j :| 0 <= j < |deque| && !InWindow(deque[j], now, window);
      LostIsOutside(lost, deque, j, now, window);
    }
  }

  // Everything before an out-of-window stamp is out of the window too.
  lemma LostIsOutside(lost: seq<Ticks>, deque: seq<Ticks>, j: nat, now: Ticks, window: Ticks)
    requires Ascending(lost + deque) && NotAfter(lost + deque, now)
    requires j < |deque| && !InWindow(deque[j], now, window)
    ensures Recent(lost, now, window) == 0
  {
    var all := lost + deque;
    assert all[|lost| + j] == deque[j] && deque[j] <= now;
    forall i | 0 <= i < |lost|
      ensures !InWindow(lost[i], now, window)
    {
      assert all[i] == lost[i] && all[i] <= all[|lost| + j];
    }
    RecentBounds(lost, now, window);
  }

  // Trimming to cap stamps answers as the history does, for every history and
  // every moment.
  ghost predicate TrimmingIsSound(window: Ticks, max: nat, cap: nat)
  {
    forall history, now ::
      Ascending(history) && NotAfter(history, now) ==>
        (Recent(Base.Trimmed(history, cap), now, window) >= max <==> Recent(history, now, window) >= max)
  }

  // That is so exactly when the bound does not exceed the cap.
  lemma TrimmingIsExact(window: Ticks, max: nat, cap: nat)
    ensures TrimmingIsSound(window, max, cap) <==> max <= cap
  {
    if max <= cap {
      forall history, now | Ascending(history) && NotAfter(history, now)
        ensures Recent(Base.Trimmed(history, cap), now, window) >= max <==> Recent(history, now, window) >= max
      {
        TrimRetains(history, cap);
        DequeDecidesLikeHistory(Base.Trimmed(history, cap), history, now, window, max, cap);
      }
    } else {
      var zero: Ticks := 0;
      var burst := seq(max, i => zero);
      RecentBounds(burst, 0, window);
      RecentBounds(Base.Trimmed(burst, cap), 0, window);
      assert Ascending(burst) && NotAfter(burst, 0);
    }
  }

  lemma RetainsCompose(a: seq<Ticks>, kept: seq<Ticks>, rest: seq<Ticks>, deque: seq<Ticks>, cap: nat)
    requires Retains(kept, a, cap) && Retains(deque, kept + rest, cap)
    ensures Retains(deque, a + rest, cap)
  {
    assert (a + rest)[|a| - |kept|..] == kept + rest;
  }

  lemma TrimRetains(s: seq<Ticks>, cap: nat)
    ensures Retains(Base.Trimmed(s, cap), s, cap) && Retains(s, s, cap)
  {
  }

  // ------------------------------------------------------------------------
  // Adaptations of a run
  // ------------------------------------------------------------------------

  ghost function Adaptations(ms: seq<Move>): seq<Move>
  {
    if ms == [] then []
    else (if ms[0].Adapts() then [ms[0]] else []) + Adaptations(ms[1..])
  }

  ghost function Adapting(m: Option<Move>): seq<Move>
  {
    if m.Some? && m.value.Adapts() then [m.value] else []
  }

  ghost function Stamps(ms: seq<Move>): seq<Ticks>
  {
    seq(|ms|, i requires 0 <= i < |ms| => ms[i].at)
  }

  ghost function AdaptationsOf(s: State, es: seq<Event>, p: Id, limits: Limits): seq<Move>
  {
    Adaptations(MovesOf(s, es, p, limits))
  }

  lemma {:induction false} DequeRetainsRun(s: State, es: seq<Event>, p: Id, sem: Semantics, limits: Limits)
    requires StateOk(s) && HasSemantics(s, p, sem) && RunWithin(s, es, p, limits)
    ensures Retains(TimingOf(Exec(s, es, limits), p).churn,
                    TimingOf(s, p).churn + Stamps(AdaptationsOf(s, es, p, limits)), limits.maxAdaptations)
    decreases |es|
  {
    hide After, MoveOf, Within, StateOk, HasSemantics, TimingOf, Retains;
    var before, cap := TimingOf(s, p).churn, limits.maxAdaptations;
    if es == [] {
      assert before + Stamps([]) == before;
      TrimRetains(before, cap);
    } else {
      var t := After(s, es[0], limits);
      var m := MoveOf(s, es[0], p, limits);
      StepTimers(s, es[0], p, sem, limits);
      StepOk(s, es[0], limits);
      DequeRetainsRun(t, es[1..], p, sem, limits);
      var rest := AdaptationsOf(t, es[1..], p, limits);
      var deque := TimingOf(Exec(t, es[1..], limits), p).churn;
      if m.Some? && m.value.Adapts() {
        TrimRetains(before + [m.value.at], cap);
        RetainsCompose(before + [m.value.at], TimingOf(t, p).churn, Stamps(rest), deque, cap);
        assert Stamps([m.value] + rest) == [m.value.at] + Stamps(rest);
        assert before + [m.value.at] + Stamps(rest) == before + ([m.value.at] + Stamps(rest));
        assert AdaptationsOf(s, es, p, limits) == [m.value] + rest;
      } else {
        assert AdaptationsOf(s, es, p, limits) == rest;
      }
    }
  }

  // ------------------------------------------------------------------------
  // Runs step by step from the end
  // ------------------------------------------------------------------------

  lemma {:induction false} SplitRun(s: State, a: seq<Event>, e: Event, p: Id, limits: Limits)
    requires RunWithin(s, a + [e], p, limits)
    ensures RunWithin(s, a, p, limits) && Within(Exec(s, a, limits), e, p, limits)
    ensures Exec(s, a + [e], limits) == After(Exec(s, a, limits), e, limits)
    ensures AdaptationsOf(s, a + [e], p, limits)
         == AdaptationsOf(s, a, p, limits) + Adapting(MoveOf(Exec(s, a, limits), e, p, limits))
    decreases |a|
  {
    hide After, MoveOf, Within;
    if a == [] {
      assert (a + [e])[1..] == [];
      assert Exec(After(s, e, limits), [], limits) == After(s, e, limits);
      assert MovesOf(After(s, e, limits), [], p, limits) == [];
      var m := MoveOf(s, e, p, limits);
      if m.Some? {
        assert MovesOf(s, a + [e], p, limits) == [m.value];
      }
    } else {
      assert (a + [e])[0] == a[0] && (a + [e])[1..] == a[1..] + [e];
      SplitRun(After(s, a[0], limits), a[1..], e, p, limits);
      AdaptationsStep(s, a, p, limits);
      AdaptationsStep(s, a + [e], p, limits);
    }
  }

  lemma AdaptationsStep(s: State, es: seq<Event>, p: Id, limits: Limits)
    requires es != []
    ensures AdaptationsOf(s, es, p, limits)
         == Adapting(MoveOf(s, es[0], p, limits)) + AdaptationsOf(After(s, es[0], limits), es[1..], p, limits)
  {
    hide After, MoveOf;
  }

  // Stamps follow the clock.
  ghost predicate StampsFollow(stamps: seq<Ticks>, from: Ticks, to: Ticks)
  {
    Ascending(stamps) && NotAfter(stamps, to) && from <= to && forall i :: 0 <= i < |stamps| ==> from <= stamps[i]
  }

  ghost function ClockAfter(from: Ticks, es: seq<Event>): Ticks { if es == [] then from else es[|es| - 1].now }

  lemma {:induction false} StampsAreTimely(s: State, es: seq<Event>, p: Id, from: Ticks, limits: Limits)
    requires Clocked(from, es) && RunWithin(s, es, p, limits) && NoRestarts(es)
    ensures StampsFollow(Stamps(AdaptationsOf(s, es, p, limits)), from, ClockAfter(from, es))
    decreases |es|
  {
    hide After, Within, MoveOf, AdaptationsOf, StampsFollow;
    if es == [] {
      NoAdaptations(s, p, limits, Churn(0, 0));
      EmptyFollows(from);
    } else {
      var rest := AdaptationsOf(After(s, es[0], limits), es[1..], p, limits);
      var m := MoveOf(s, es[0], p, limits);
      MoveAt(s, es[0], p, limits);
      StampsAreTimely(After(s, es[0], limits), es[1..], p, es[0].now, limits);
      AdaptationsStep(s, es, p, limits);
      FollowsPrepend(es[0].now, Stamps(rest), from, ClockAfter(from, es));
      if m.Some? && m.value.Adapts() {
        assert Stamps([m.value] + rest) == [m.value.at] + Stamps(rest);
      } else {
        assert [] + rest == rest;
      }
    }
  }

  lemma EmptyFollows(from: Ticks)
    ensures StampsFollow(Stamps([]), from, from)
  {
  }

  lemma FollowsPrepend(at: Ticks, rest: seq<Ticks>, from: Ticks, to: Ticks)
    requires StampsFollow(rest, at, to) && from <= at
    ensures StampsFollow([at] + rest, from, to) && StampsFollow(rest, from, to)
  {
  }

  ghost predicate NoRestarts(es: seq<Event>)
  {
    forall i :: 0 <= i < |es| ==> !es[i].op.Restart?
  }

  lemma MoveAt(s: State, e: Event, p: Id, limits: Limits)
    ensures MoveOf(s, e, p, limits).Some? ==> MoveOf(s, e, p, limits).value.at == e.now
  {
    hide CommitsTicket, RollbackRefusal, RestoreRefusal;
  }

  lemma {:induction false} SplitClock(from: Ticks, a: seq<Event>, e: Event)
    requires Clocked(from, a + [e]) && NoRestarts(a + [e])
    ensures Clocked(from, a) && NoRestarts(a) && Timely(ClockAfter(from, a), e) && ClockAfter(from, a) <= e.now
    decreases |a|
  {
    assert (a + [e])[|a|] == e;
    if a == [] {
      assert (a + [e])[0] == e;
    } else {
      assert (a + [e])[0] == a[0] && (a + [e])[1..] == a[1..] + [e];
      assert forall i :: 0 <= i < |a[1..] + [e]| ==> (a[1..] + [e])[i] == (a + [e])[i + 1];
      assert forall i :: 0 <= i < |a| ==> (a + [e])[i] == a[i];
      SplitClock(a[0].now, a[1..], e);
    }
  }

  // ------------------------------------------------------------------------
  // The bound
  // ------------------------------------------------------------------------

  ghost predicate ChurnBounded(sem: Semantics, limits: Limits)
  {
    sem.churn.Enabled() && sem.churn.max <= limits.maxAdaptations
  }

  // Creation holds the bound to the cap; an update does not. Above the cap the
  // timers a commit leaves never report the bound as reached.
  lemma BoundAboveCapIsIdle(sem: Semantics, t: Timing, locked: Id, at: Ticks, now: Ticks, limits: Limits)
    requires sem.churn.max > limits.maxAdaptations
    ensures !ChurnExhausted(sem.churn, Armed(sem, t, locked, at, limits).churn, now)
  {
    RecentBounds(Base.Trimmed(t.churn + [at], limits.maxAdaptations), now, sem.churn.window);
  }

  lemma UpdateAdmitsAnyBound(s: State, q: UpdateRequest, churn: Churn, limits: Limits)
    requires UpdateRefusal(s, q, limits).None? && q.semantics.(churn := churn).Valid()
    ensures UpdateRefusal(s, q.(semantics := q.semantics.(churn := churn)), limits).None?
  {
    hide ScopeRefusal, Replay, Semantics.FirstDefect;
  }

  // An ordinary adaptation finds fewer than max earlier adaptations of the run
  // inside the window ending at it, counted over the whole history.
  lemma OrdinaryFindsRoom(
    s: State, es: seq<Event>, e: Event, m: Move, p: Id, sem: Semantics, from: Ticks, limits: Limits)
    requires StateOk(s) && HasSemantics(s, p, sem) && ChurnBounded(sem, limits) && RunWithin(s, es, p, limits)
    requires Clocked(from, es) && NoRestarts(es) && ClockAfter(from, es) <= e.now
    requires Ascending(TimingOf(s, p).churn) && NotAfter(TimingOf(s, p).churn, from)
    requires MoveOf(Exec(s, es, limits), e, p, limits) == Some(m) && m.kind.Ordinary?
    ensures Recent(TimingOf(s, p).churn + Stamps(AdaptationsOf(s, es, p, limits)), m.at, sem.churn.window)
            < sem.churn.max
  {
    hide After, MoveOf, Exec, RunWithin, StateOk, TimingOf, HasSemantics, AdaptationsOf, Retains, StandingOf;
    var t := Exec(s, es, limits);
    SemanticsStay(s, es, p, sem, limits);
    OrdinaryWaits(t, e, p, m, sem, limits);
    DequeRetainsRun(s, es, p, sem, limits);
    StampsAreTimely(s, es, p, from, limits);
    var history := TimingOf(s, p).churn + Stamps(AdaptationsOf(s, es, p, limits));
    HistoryFollows(TimingOf(s, p).churn, Stamps(AdaptationsOf(s, es, p, limits)), from, ClockAfter(from, es), m.at);
    DequeDecidesLikeHistory(TimingOf(t, p).churn, history, m.at, sem.churn.window, sem.churn.max,
                            limits.maxAdaptations);
  }

  lemma HistoryFollows(a: seq<Ticks>, b: seq<Ticks>, from: Ticks, to: Ticks, now: Ticks)
    requires Ascending(a) && NotAfter(a, from) && StampsFollow(b, from, to) && to <= now
    ensures Ascending(a + b) && NotAfter(a + b, now)
  {
  }

  lemma {:induction false} SemanticsStay(s: State, es: seq<Event>, p: Id, sem: Semantics, limits: Limits)
    requires StateOk(s) && HasSemantics(s, p, sem) && RunWithin(s, es, p, limits)
    ensures HasSemantics(Exec(s, es, limits), p, sem)
    decreases |es|
  {
    hide After, MoveOf, Within, StateOk, HasSemantics;
    if es != [] {
      StepTimers(s, es[0], p, sem, limits);
      StepOk(s, es[0], limits);
      SemanticsStay(After(s, es[0], limits), es[1..], p, sem, limits);
    }
  }

  // Any run of adaptations that fits into one window and ends with an ordinary
  // one has at most max members.
  ghost predicate WindowsBounded(a: seq<Move>, churn: Churn)
  {
    forall i, k :: 0 <= i <= k < |a| && a[k].kind.Ordinary? && InWindow(a[i].at, a[k].at, churn.window) ==>
      k - i + 1 <= churn.max
  }

  // Inside one epoch and policy generation no window of the declared length
  // that ends with an ordinary adaptation holds more than the declared number
  // of adaptations, emergencies and rollbacks included.
  lemma {:induction false} ChurnBoundHolds(
    s: State, es: seq<Event>, p: Id, sem: Semantics, from: Ticks, limits: Limits)
    requires StateOk(s) && HasSemantics(s, p, sem) && ChurnBounded(sem, limits) && RunWithin(s, es, p, limits)
    requires Clocked(from, es) && NoRestarts(es)
    requires Ascending(TimingOf(s, p).churn) && NotAfter(TimingOf(s, p).churn, from)
    ensures WindowsBounded(AdaptationsOf(s, es, p, limits), sem.churn)
    decreases |es|
  {
    hide After, MoveOf, RunWithin, StateOk, TimingOf, HasSemantics, WindowsBounded, Exec;
    if es == [] {
      NoAdaptations(s, p, limits, sem.churn);
    } else {
      var init, e := es[..|es| - 1], es[|es| - 1];
      assert es == init + [e];
      SplitRun(s, init, e, p, limits);
      SplitClock(from, init, e);
      ChurnBoundHolds(s, init, p, sem, from, limits);
      var m := MoveOf(Exec(s, init, limits), e, p, limits);
      if m.Some? && m.value.Adapts() {
        if m.value.kind.Ordinary? {
          OrdinaryFindsRoom(s, init, e, m.value, p, sem, from, limits);
        }
        StampsAreTimely(s, init, p, from, limits);
        MoveAt(Exec(s, init, limits), e, p, limits);
        WindowGrows(AdaptationsOf(s, init, p, limits), m.value, TimingOf(s, p).churn, sem.churn);
      } else {
        assert AdaptationsOf(s, es, p, limits) == AdaptationsOf(s, init, p, limits);
      }
    }
  }

  lemma NoAdaptations(s: State, p: Id, limits: Limits, churn: Churn)
    ensures AdaptationsOf(s, [], p, limits) == [] && WindowsBounded(AdaptationsOf(s, [], p, limits), churn)
  {
    hide After, MoveOf;
  }

  lemma WindowGrows(a: seq<Move>, m: Move, before: seq<Ticks>, churn: Churn)
    requires WindowsBounded(a, churn) && Ascending(Stamps(a)) && NotAfter(Stamps(a), m.at)
    requires m.kind.Ordinary? ==> Recent(before + Stamps(a), m.at, churn.window) < churn.max
    ensures WindowsBounded(a + [m], churn)
  {
    var b := a + [m];
    forall i, k | 0 <= i <= k < |b| && b[k].kind.Ordinary? && InWindow(b[i].at, b[k].at, churn.window)
      ensures k - i + 1 <= churn.max
    {
      if k == |a| {
        TailInWindow(a, i, m.at, before, churn.window);
      }
    }
  }

  // Everything from an in-window stamp on is in the window.
  lemma TailInWindow(a: seq<Move>, i: nat, now: Ticks, before: seq<Ticks>, window: Ticks)
    requires i <= |a| && Ascending(Stamps(a)) && NotAfter(Stamps(a), now)
    requires i < |a| ==> InWindow(a[i].at, now, window)
    ensures Recent(before + Stamps(a), now, window) >= |a| - i
  {
    var head, tail := Stamps(a)[..i], Stamps(a)[i..];
    assert Stamps(a) == head + tail;
    RecentOfConcat(before, Stamps(a), now, window);
    RecentOfConcat(head, tail, now, window);
    forall j | 0 <= j < |tail|
      ensures InWindow(tail[j], now, window)
    {
      assert tail[j] == Stamps(a)[i + j] && Stamps(a)[i] <= Stamps(a)[i + j];
    }
    RecentBounds(tail, now, window);
  }
}
