/** Over any run, the stored status, the phase and the log of every objective and condition are functions of the history. */
module GoalLogs {
  import opened Base
  import opened Order
  import opened Sl1Scene
  import opened Goals
  import opened GoalRuns
  import opened GoalMeanings

  // ---- The log of one subject ----

  datatype Subject = AnObjective(id: Id) | AWarning(id: Id) | AFailure(id: Id) | AVictory(id: Id)

  predicate About(e: GoalEvent, x: Subject) {
    match e
    case ObjectiveChanged(id, _, _, _) => x == AnObjective(id)
    case NotSupported(id, _) => x == AWarning(id)
    case FailureFired(id, _) => x == AFailure(id)
    case VictoryMet(id, _) => x == AVictory(id)
    case OutcomeChanged(_, _) => false
  }

  function LogOf(es: seq<GoalEvent>, x: Subject): seq<GoalEvent> {
    if es == [] then [] else LogOf(es[..|es| - 1], x) + Only(es[|es| - 1], x)
  }

  function Only(e: GoalEvent, x: Subject): seq<GoalEvent> { if About(e, x) then [e] else [] }

  lemma LogMore(es: seq<GoalEvent>, e: GoalEvent, x: Subject)
    ensures LogOf(es + [e], x) == LogOf(es, x) + Only(e, x)
  {
    assert (es + [e])[..|es|] == es;
  }

  lemma LogSome(es: seq<GoalEvent>, more: seq<GoalEvent>, x: Subject)
    requires |more| <= 1
    ensures LogOf(es + more, x) == LogOf(es, x) + if more == [] then [] else Only(more[0], x)
  {
    if more == [] { assert es + more == es; } else { LogMore(es, more[0], x); assert more == [more[0]]; }
  }

  function If(b: bool, e: GoalEvent): seq<GoalEvent> { if b then [e] else [] }

  // ---- One judgement ----

  lemma ObjectiveLogged(r: Rules, o: Objective, g: GoalState, s: Snapshot, now: u64, x: Subject)
    ensures var g' := JudgeObjective(r, o, g, s, now); var was, status := ObjectiveOf(g, o.id).status, Evaluate(r, o, s, now);
      LogOf(g'.events, x) == LogOf(g.events, x)
        + If(x == AWarning(o.id) && o.params.UnsupportedObjective? && o.id !in g.warned, NotSupported(o.id, now))
        + If(x == AnObjective(o.id) && was != status, ObjectiveChanged(o.id, was, status, now))
  {
    var was, status := ObjectiveOf(g, o.id).status, Evaluate(r, o, s, now);
    var mute := o.params.UnsupportedObjective? && o.id !in g.warned;
    LogSome(g.events, If(mute, NotSupported(o.id, now)), x);
    LogSome(g.events + If(mute, NotSupported(o.id, now)), If(was != status, ObjectiveChanged(o.id, was, status, now)), x);
    hide LogOf, Evaluate;
  }

  lemma {:induction false} ObjectivesLogged(r: Rules, k: nat, i: nat, g: GoalState, s: Snapshot, now: u64)
    requires RulesOk(r) && k <= |r.objectives| && i < |r.objectives|
    ensures var g' := JudgeObjectives(r, k, g, s, now); var o := r.objectives[i]; var was, status := ObjectiveOf(g, o.id), Evaluate(r, o, s, now);
      if i >= k then
        && ObjectiveOf(g', o.id) == was && (o.id in g'.warned <==> o.id in g.warned)
        && LogOf(g'.events, AnObjective(o.id)) == LogOf(g.events, AnObjective(o.id)) && LogOf(g'.events, AWarning(o.id)) == LogOf(g.events, AWarning(o.id))
      else
        && ObjectiveOf(g', o.id).status == status && ObjectiveOf(g', o.id).lastChange == (if was.status != status then now else was.lastChange)
        && (o.id in g'.warned <==> o.id in g.warned || o.params.UnsupportedObjective?)
        && LogOf(g'.events, AnObjective(o.id))
             == LogOf(g.events, AnObjective(o.id)) + If(was.status != status, ObjectiveChanged(o.id, was.status, status, now))
        && LogOf(g'.events, AWarning(o.id))
             == LogOf(g.events, AWarning(o.id)) + If(o.params.UnsupportedObjective? && o.id !in g.warned, NotSupported(o.id, now))
  {
    hide Evaluate, LogOf;
    if k > 0 {
      ObjectivesLogged(r, k - 1, i, g, s, now);
      if r.objectives[k - 1].id == r.objectives[i].id { SortedDistinct(r.objectives, ObjectiveKey, k - 1, i); }
      var before := JudgeObjectives(r, k - 1, g, s, now);
      ObjectiveLogged(r, r.objectives[k - 1], before, s, now, AnObjective(r.objectives[i].id));
      ObjectiveLogged(r, r.objectives[k - 1], before, s, now, AWarning(r.objectives[i].id));
    }
  }

  lemma {:induction false} ObjectivesElse(r: Rules, k: nat, g: GoalState, s: Snapshot, now: u64, x: Subject)
    requires k <= |r.objectives| && (x.AFailure? || x.AVictory?)
    ensures LogOf(JudgeObjectives(r, k, g, s, now).events, x) == LogOf(g.events, x)
  {
    hide LogOf, JudgeObjective;
    if k > 0 {
      ObjectivesElse(r, k - 1, g, s, now, x);
      ObjectiveLogged(r, r.objectives[k - 1], JudgeObjectives(r, k - 1, g, s, now), s, now, x);
    }
  }

  /** The failure condition fires on this very judgement. */
  predicate Fires(r: Rules, f: Failure, g: GoalState, s: Snapshot, now: u64) {
    FailureOf(g, f.id).firedAt.None? && Breaches(r, f, s, g.objectives, now) && SatAdd(FailureOf(g, f.id).streak, 1) > Grace(f.params)
  }

  lemma FailureLogged(r: Rules, f: Failure, g: GoalState, s: Snapshot, now: u64, x: Subject)
    ensures var g' := JudgeFailure(r, f, g, s, now);
      g'.warned == g.warned && LogOf(g'.events, x) == LogOf(g.events, x) + If(x == AFailure(f.id) && Fires(r, f, g, s, now), FailureFired(f.id, now))
  {
    LogMore(g.events, FailureFired(f.id, now), x);
    hide Breaches, LogOf;
  }

  /** The first k conditions do not change whether a later one fires. */
  lemma FiresStill(r: Rules, k: nat, g: GoalState, s: Snapshot, now: u64)
    requires RulesOk(r) && k < |r.failures|
    ensures Fires(r, r.failures[k], JudgeFailures(r, k, g, s, now), s, now) <==> Fires(r, r.failures[k], g, s, now)
  {
    FailuresAt(r, k, k, g, s, now);
    FailuresFrame(r, k, g, s, now);
    hide Breaches, JudgeFailures, RulesOk;
  }

  lemma {:induction false} FailuresLogged(r: Rules, k: nat, g: GoalState, s: Snapshot, now: u64, x: Subject)
    requires RulesOk(r) && k <= |r.failures|
    ensures var g' := JudgeFailures(r, k, g, s, now);
      && g'.warned == g.warned
      && (!x.AFailure? ==> LogOf(g'.events, x) == LogOf(g.events, x))
      && (forall i :: 0 <= i < |r.failures| && x == AFailure(r.failures[i].id) ==>
            LogOf(g'.events, x) == LogOf(g.events, x) + If(i < k && Fires(r, r.failures[i], g, s, now), FailureFired(r.failures[i].id, now)))
  {
    hide Breaches, LogOf, JudgeFailure, Fires;
    if k > 0 {
      FailuresLogged(r, k - 1, g, s, now, x);
      FiresStill(r, k - 1, g, s, now);
      FailureLogged(r, r.failures[k - 1], JudgeFailures(r, k - 1, g, s, now), s, now, x);
      forall i | 0 <= i < |r.failures| && r.failures[i].id == r.failures[k - 1].id ensures i == k - 1 {
        SortedDistinct(r.failures, FailureKey, i, k - 1);
      }
      hide RulesOk;
    }
  }

  lemma {:induction false} VictoriesLogged(r: Rules, k: nat, g: GoalState, now: u64, x: Subject)
    requires RulesOk(r) && k <= |r.victories|
    ensures var g' := JudgeVictories(r, k, g, now);
      && g'.warned == g.warned
      && (!x.AVictory? ==> LogOf(g'.events, x) == LogOf(g.events, x))
      && (forall i :: 0 <= i < |r.victories| && x == AVictory(r.victories[i].id) ==>
            LogOf(g'.events, x) == LogOf(g.events, x)
              + If(i < k && now >= r.victories[i].atTick && VictoryOf(g, r.victories[i].id).None?, VictoryMet(r.victories[i].id, now)))
  {
    hide LogOf;
    if k > 0 {
      VictoriesLogged(r, k - 1, g, now, x);
      VictoriesAt(r, k - 1, k - 1, g, now);
      var before := JudgeVictories(r, k - 1, g, now);
      LogMore(before.events, VictoryMet(r.victories[k - 1].id, now), x);
      forall i | 0 <= i < |r.victories| && r.victories[i].id == r.victories[k - 1].id ensures i == k - 1 {
        SortedDistinct(r.victories, VictoryKey, i, k - 1);
      }
    }
  }

  /** The steps of one judged tick. */
  lemma JudgeSteps(r: Rules, g: GoalState, s: Snapshot, now: u64, x: Subject)
    ensures var g1 := JudgeObjectives(r, |r.objectives|, g, s, now);
      var g2 := JudgeFailures(r, |r.failures|, g1, s, now); var g3 := JudgeVictories(r, |r.victories|, g2, now); var g' := Judge(r, g, s, now);
      && g'.warned == g3.warned && g'.objectives == g3.objectives && LogOf(g'.events, x) == LogOf(g3.events, x)
  {
    hide *;
    JudgeUnfold(r, g, s, now);
    SettleQuiet(r, JudgeVictories(r, |r.victories|, JudgeFailures(r, |r.failures|, JudgeObjectives(r, |r.objectives|, g, s, now), s, now), now), now, x);
  }

  lemma JudgeUnfold(r: Rules, g: GoalState, s: Snapshot, now: u64)
    ensures var g3 := JudgeVictories(r, |r.victories|, JudgeFailures(r, |r.failures|, JudgeObjectives(r, |r.objectives|, g, s, now), s, now), now);
      var g4 := Settle(r, g3, now); Judge(r, g, s, now) == g4.(phase := PhaseOf(r, g4))
  {
    hide JudgeObjectives, JudgeFailures, JudgeVictories, Settle, PhaseOf;
  }

  lemma SettleQuiet(r: Rules, g: GoalState, now: u64, x: Subject)
    ensures var g' := Settle(r, g, now);
      g'.warned == g.warned && g'.objectives == g.objectives && g'.failures == g.failures && LogOf(g'.events, x) == LogOf(g.events, x)
  {
    LogMore(g.events, OutcomeChanged(Settled(r, g), now), x);
    hide Settled, LogOf;
  }

  // ---- The history of one subject, without any stored state ----

  function StatusOn(r: Rules, ss: seq<Snapshot>, o: Objective, n: nat): Status
    requires n <= |ss| <= U64_MAX
  {
    if n == 0 then Unknown else Evaluate(r, o, ss[n - 1], n)
  }

  /** The last tick on which the status changed. */
  function LastTurn(r: Rules, ss: seq<Snapshot>, o: Objective, n: nat): u64
    requires n <= |ss| <= U64_MAX
  {
    if n == 0 then 0 else if StatusOn(r, ss, o, n - 1) != StatusOn(r, ss, o, n) then n else LastTurn(r, ss, o, n - 1)
  }

  function Turns(r: Rules, ss: seq<Snapshot>, o: Objective, n: nat): seq<GoalEvent>
    requires n <= |ss| <= U64_MAX
  {
    if n == 0 then []
    else
      var was, status := StatusOn(r, ss, o, n - 1), StatusOn(r, ss, o, n);
      Turns(r, ss, o, n - 1) + If(was != status, ObjectiveChanged(o.id, was, status, n))
  }

  /** The first tick up to n on which the condition fails. */
  function FiringTick(r: Rules, ss: seq<Snapshot>, f: Failure, n: nat): (t: Option<u64>)
    requires n <= |ss| <= U64_MAX
    ensures t.None? ==> forall k :: 1 <= k <= n ==> !Fails(r, ss, f, k)
    ensures t.Some? ==> 1 <= t.value <= n && Fails(r, ss, f, t.value) && forall k :: 1 <= k < t.value ==> !Fails(r, ss, f, k)
  {
    if n == 0 then None
    else
      var before := FiringTick(r, ss, f, n - 1);
      if before.Some? then before else if Fails(r, ss, f, n) then Some(n) else None
  }

  function Firings(id: Id, t: Option<u64>): seq<GoalEvent> { if t.Some? then [FailureFired(id, t.value)] else [] }

  /** After tick n of a judged run, what is stored and logged of objective i. */
  ghost predicate ObjectiveTold(r: Rules, ss: seq<Snapshot>, n: nat, i: nat)
    requires n <= |ss| <= U64_MAX && i < |r.objectives|
  {
    var g, o := JudgedAt(r, ss, n), r.objectives[i];
    && ObjectiveOf(g, o.id).status == StatusOn(r, ss, o, n) && ObjectiveOf(g, o.id).lastChange == LastTurn(r, ss, o, n)
    && ObjectiveOf(g, o.id).breaches == BreachTicks(r, ss, o, n)
    && (o.id in g.warned <==> o.params.UnsupportedObjective? && n > 0)
    && LogOf(g.events, AnObjective(o.id)) == Turns(r, ss, o, n)
    && LogOf(g.events, AWarning(o.id)) == If(o.params.UnsupportedObjective? && n > 0, NotSupported(o.id, 1))
  }

  lemma ObjectiveStep(r: Rules, g: GoalState, s: Snapshot, now: u64, i: nat)
    requires RulesOk(r) && i < |r.objectives|
    ensures var g' := Judge(r, g, s, now); var o := r.objectives[i]; var was, status := ObjectiveOf(g, o.id), Evaluate(r, o, s, now);
      && ObjectiveOf(g', o.id).status == status && ObjectiveOf(g', o.id).lastChange == (if was.status != status then now else was.lastChange)
      && (o.id in g'.warned <==> o.id in g.warned || o.params.UnsupportedObjective?)
      && LogOf(g'.events, AnObjective(o.id))
           == LogOf(g.events, AnObjective(o.id)) + If(was.status != status, ObjectiveChanged(o.id, was.status, status, now))
      && LogOf(g'.events, AWarning(o.id))
           == LogOf(g.events, AWarning(o.id)) + If(o.params.UnsupportedObjective? && o.id !in g.warned, NotSupported(o.id, now))
  {
    var o := r.objectives[i];
    var g1 := JudgeObjectives(r, |r.objectives|, g, s, now);
    var g2 := JudgeFailures(r, |r.failures|, g1, s, now);
    hide Judge, JudgeObjectives, JudgeFailures, JudgeVictories, LogOf, Evaluate, RulesOk;
    ObjectivesLogged(r, |r.objectives|, i, g, s, now);
    FailuresLogged(r, |r.failures|, g1, s, now, AnObjective(o.id));
    FailuresLogged(r, |r.failures|, g1, s, now, AWarning(o.id));
    FailuresFrame(r, |r.failures|, g1, s, now);
    VictoriesLogged(r, |r.victories|, g2, now, AnObjective(o.id));
    VictoriesLogged(r, |r.victories|, g2, now, AWarning(o.id));
    VictoriesFrame(r, |r.victories|, g2, now);
    JudgeSteps(r, g, s, now, AnObjective(o.id));
    JudgeSteps(r, g, s, now, AWarning(o.id));
  }

  lemma {:induction false} ObjectivesTold(r: Rules, ss: seq<Snapshot>, n: nat, i: nat)
    requires RulesOk(r) && n <= |ss| <= U64_MAX && i < |r.objectives|
    ensures ObjectiveTold(r, ss, n, i)
  {
    hide Judge, Evaluate, BreachTicks, RulesOk, LogOf;
    BreachesCounted(r, ss, n, i);
    if n == 0 {
      FreshObjective(r, ss, i);
    } else {
      ObjectivesTold(r, ss, n - 1, i);
      ObjectiveStep(r, JudgedAt(r, ss, n - 1), ss[n - 1], n, i);
    }
  }

  lemma FreshObjective(r: Rules, ss: seq<Snapshot>, i: nat)
    requires |ss| <= U64_MAX && i < |r.objectives|
    ensures var g, o := JudgedAt(r, ss, 0), r.objectives[i]; ObjectiveOf(g, o.id).status == Unknown && ObjectiveOf(g, o.id).lastChange == 0 && g.warned == {} && g.events == []
    ensures forall x :: LogOf([], x) == []
  {
    assert r.objectives[i] in r.objectives;
  }

  /** After tick n of a judged run, what is stored and logged of failure condition i. */
  ghost predicate FailureKnown(r: Rules, ss: seq<Snapshot>, n: nat, i: nat)
    requires n <= |ss| <= U64_MAX && i < |r.failures|
  {
    var g, f := JudgedAt(r, ss, n), r.failures[i];
    && FailureOf(g, f.id).streak == Streak(r, ss, f, n) && FailureOf(g, f.id).firedAt == FiringTick(r, ss, f, n)
    && LogOf(g.events, AFailure(f.id)) == Firings(f.id, FiringTick(r, ss, f, n))
  }

  lemma FiresSeen(r: Rules, g: GoalState, s: Snapshot, now: u64, i: nat)
    requires RulesOk(r) && i < |r.failures|
    ensures var f := r.failures[i];
      Fires(r, f, JudgeObjectives(r, |r.objectives|, g, s, now), s, now)
      <==> FailureOf(g, f.id).firedAt.None? && FailureOf(Judge(r, g, s, now), f.id).firedAt.Some?
  {
    JudgeParts(r, g, s, now);
    ObjectivesOnly(r, |r.objectives|, g, s, now);
    hide Judge, JudgeObjectives, RulesOk, Breaches, Settled, VictoryOf;
  }

  lemma FailureStep(r: Rules, g: GoalState, s: Snapshot, now: u64, i: nat)
    requires RulesOk(r) && i < |r.failures|
    ensures var g' := Judge(r, g, s, now); var f := r.failures[i]; var was := FailureOf(g, f.id);
      LogOf(g'.events, AFailure(f.id))
        == LogOf(g.events, AFailure(f.id)) + If(was.firedAt.None? && FailureOf(g', f.id).firedAt.Some?, FailureFired(f.id, now))
  {
    hide *;
    var x := AFailure(r.failures[i].id);
    var g1 := JudgeObjectives(r, |r.objectives|, g, s, now);
    var g2 := JudgeFailures(r, |r.failures|, g1, s, now);
    FiresSeen(r, g, s, now, i);
    ObjectivesElse(r, |r.objectives|, g, s, now, x);
    FailuresLogged(r, |r.failures|, g1, s, now, x);
    VictoriesLogged(r, |r.victories|, g2, now, x);
    JudgeSteps(r, g, s, now, x);
  }

  lemma {:induction false} FailuresKnown(r: Rules, ss: seq<Snapshot>, n: nat, i: nat)
    requires RulesOk(r) && n <= |ss| <= U64_MAX && i < |r.failures|
    ensures FailureKnown(r, ss, n, i)
  {
    hide Judge, BreachedOn, RulesOk, LogOf;
    if n == 0 {
      FreshFailure(r, ss, i);
    } else {
      FailuresKnown(r, ss, n - 1, i);
      StreakBounded(r, ss, r.failures[i], n - 1);
      FailureJudged(r, ss, n, i);
      FailureStep(r, JudgedAt(r, ss, n - 1), ss[n - 1], n, i);
    }
  }

  lemma FreshFailure(r: Rules, ss: seq<Snapshot>, i: nat)
    requires |ss| <= U64_MAX && i < |r.failures|
    ensures var g := JudgedAt(r, ss, 0); FailureOf(g, r.failures[i].id) == FailureState(0, None) && LogOf(g.events, AFailure(r.failures[i].id)) == []
  {
    assert r.failures[i] in r.failures;
  }

  /** After tick n of a judged run, what is stored and logged of victory condition i. */
  ghost predicate VictoryKnown(r: Rules, ss: seq<Snapshot>, n: nat, i: nat)
    requires n <= |ss| <= U64_MAX && i < |r.victories|
  {
    var g, v := JudgedAt(r, ss, n), r.victories[i];
    && VictoryOf(g, v.id) == (if n >= v.atTick then Some(v.atTick) else None)
    && LogOf(g.events, AVictory(v.id)) == If(n >= v.atTick, VictoryMet(v.id, v.atTick))
  }

  lemma MeetsSeen(r: Rules, g: GoalState, s: Snapshot, now: u64, i: nat)
    requires RulesOk(r) && i < |r.victories|
    ensures var v := r.victories[i]; var g1 := JudgeObjectives(r, |r.objectives|, g, s, now);
      && VictoryOf(JudgeFailures(r, |r.failures|, g1, s, now), v.id) == VictoryOf(g, v.id)
      && VictoryOf(Judge(r, g, s, now), v.id) == if now >= v.atTick && VictoryOf(g, v.id).None? then Some(now) else VictoryOf(g, v.id)
  {
    JudgeParts(r, g, s, now);
    ObjectivesOnly(r, |r.objectives|, g, s, now);
    FailuresFrame(r, |r.failures|, JudgeObjectives(r, |r.objectives|, g, s, now), s, now);
    hide Judge, JudgeObjectives, JudgeFailures, RulesOk, Breaches, Settled, FailureOf;
  }

  lemma VictoryStep(r: Rules, g: GoalState, s: Snapshot, now: u64, i: nat)
    requires RulesOk(r) && i < |r.victories|
    ensures var g' := Judge(r, g, s, now); var v := r.victories[i]; var meets := now >= v.atTick && VictoryOf(g, v.id).None?;
      && VictoryOf(g', v.id) == (if meets then Some(now) else VictoryOf(g, v.id))
      && LogOf(g'.events, AVictory(v.id)) == LogOf(g.events, AVictory(v.id)) + If(meets, VictoryMet(v.id, now))
  {
    hide *;
    var x := AVictory(r.victories[i].id);
    var g1 := JudgeObjectives(r, |r.objectives|, g, s, now);
    var g2 := JudgeFailures(r, |r.failures|, g1, s, now);
    MeetsSeen(r, g, s, now, i);
    ObjectivesElse(r, |r.objectives|, g, s, now, x);
    FailuresLogged(r, |r.failures|, g1, s, now, x);
    VictoriesLogged(r, |r.victories|, g2, now, x);
    JudgeSteps(r, g, s, now, x);
    IfLast(VictoryMet(x.id, now));
  }

  lemma IfLast(e: GoalEvent)
    ensures If(true, e) == [e] && If(false, e) == []
  {
  }

  lemma {:induction false} VictoriesKnown(r: Rules, ss: seq<Snapshot>, n: nat, i: nat)
    requires RulesOk(r) && n <= |ss| <= U64_MAX && i < |r.victories|
    ensures VictoryKnown(r, ss, n, i)
  {
    hide *;
    if n == 0 {
      FreshVictory(r, ss, i);
    } else {
      VictoriesKnown(r, ss, n - 1, i);
      VictoryNext(r, ss, n, i);
    }
  }

  lemma VictoryNext(r: Rules, ss: seq<Snapshot>, n: nat, i: nat)
    requires RulesOk(r) && 0 < n <= |ss| <= U64_MAX && i < |r.victories| && VictoryKnown(r, ss, n - 1, i)
    ensures VictoryKnown(r, ss, n, i)
  {
    hide *;
    var id, at := r.victories[i].id, r.victories[i].atTick;
    var g, g' := JudgedAt(r, ss, n - 1), JudgedAt(r, ss, n);
    VictoryStep(r, g, ss[n - 1], n, i);
    JudgedIs(r, ss, n);
    VictoryUnfold(r, ss, n - 1, i);
    VictoryUnfold(r, ss, n, i);
    IfLast(VictoryMet(id, n));
    IfLast(VictoryMet(id, at));
  }

  lemma JudgedIs(r: Rules, ss: seq<Snapshot>, n: nat)
    requires 0 < n <= |ss| <= U64_MAX
    ensures JudgedAt(r, ss, n) == Judge(r, JudgedAt(r, ss, n - 1), ss[n - 1], n)
  {
    hide Judge, FreshGoals;
  }

  lemma VictoryUnfold(r: Rules, ss: seq<Snapshot>, n: nat, i: nat)
    requires n <= |ss| <= U64_MAX && i < |r.victories|
    ensures var g, v := JudgedAt(r, ss, n), r.victories[i]; VictoryKnown(r, ss, n, i) <==>
      && VictoryOf(g, v.id) == (if n >= v.atTick then Some(v.atTick) else None)
      && LogOf(g.events, AVictory(v.id)) == If(n >= v.atTick, VictoryMet(v.id, v.atTick))
  {
    hide JudgedAt, VictoryOf, LogOf, If;
  }

  lemma FreshVictory(r: Rules, ss: seq<Snapshot>, i: nat)
    requires RulesOk(r) && |ss| <= U64_MAX && i < |r.victories|
    ensures VictoryKnown(r, ss, 0, i)
  {
    assert r.victories[i].atTick >= 1;
    assert r.victories[i] in r.victories;
  }

  // ---- The phase ----

  ghost predicate OnlyIds(r: Rules, g: GoalState) {
    && (forall id :: id in g.objectives ==> exists i :: 0 <= i < |r.objectives| && r.objectives[i].id == id)
    && (forall id :: id in g.failures ==> exists i :: 0 <= i < |r.failures| && r.failures[i].id == id)
  }

  lemma {:induction false} JudgedIds(r: Rules, k: nat, g: GoalState, s: Snapshot, now: u64)
    requires OnlyIds(r, g)
    ensures k <= |r.objectives| ==> OnlyIds(r, JudgeObjectives(r, k, g, s, now))
    ensures k <= |r.failures| ==> OnlyIds(r, JudgeFailures(r, k, g, s, now))
    ensures k <= |r.victories| ==> OnlyIds(r, JudgeVictories(r, k, g, now))
  {
    hide Evaluate, Breaches;
    if k > 0 { JudgedIds(r, k - 1, g, s, now); }
  }

  lemma {:induction false} IdsOnRun(r: Rules, ss: seq<Snapshot>, n: nat)
    requires n <= |ss| <= U64_MAX
    ensures OnlyIds(r, JudgedAt(r, ss, n))
  {
    hide *;
    if n == 0 {
      NoOtherIds(r, ss);
    } else {
      IdsOnRun(r, ss, n - 1);
      JudgedIs(r, ss, n);
      IdsNext(r, JudgedAt(r, ss, n - 1), ss[n - 1], n);
    }
  }

  lemma IdsNext(r: Rules, g: GoalState, s: Snapshot, now: u64)
    requires OnlyIds(r, g)
    ensures OnlyIds(r, Judge(r, g, s, now))
  {
    hide *;
    var g1 := JudgeObjectives(r, |r.objectives|, g, s, now);
    var g2 := JudgeFailures(r, |r.failures|, g1, s, now);
    var g3 := JudgeVictories(r, |r.victories|, g2, now);
    JudgedIds(r, |r.objectives|, g, s, now);
    JudgedIds(r, |r.failures|, g1, s, now);
    JudgedIds(r, |r.victories|, g2, s, now);
    JudgeUnfold(r, g, s, now);
    SettleQuiet(r, g3, now, AFailure(""));
    IdsSame(r, g3, Judge(r, g, s, now));
  }

  lemma IdsSame(r: Rules, g: GoalState, h: GoalState)
    requires OnlyIds(r, g) && g.objectives == h.objectives && g.failures == h.failures
    ensures OnlyIds(r, h)
  {
  }

  lemma NoOtherIds(r: Rules, ss: seq<Snapshot>)
    requires |ss| <= U64_MAX
    ensures OnlyIds(r, JudgedAt(r, ss, 0))
  {
  }

  lemma JudgedUnfold(r: Rules, ss: seq<Snapshot>, n: nat)
    requires 0 < n <= |ss| <= U64_MAX
    ensures var g3 := JudgeVictories(r, |r.victories|, JudgeFailures(r, |r.failures|, JudgeObjectives(r, |r.objectives|, JudgedAt(r, ss, n - 1), ss[n - 1], n), ss[n - 1], n), n);
      var g := JudgedAt(r, ss, n); g.objectives == g3.objectives && g.failures == g3.failures && g.phase == PhaseOf(r, g)
  {
    hide JudgeObjectives, JudgeFailures, JudgeVictories, Settled;
  }

  /** What the phase of a game in progress is, from what holds and what is missed on the tick. */
  ghost function PhaseTold(r: Rules, vs: seq<Sight>, n: nat): Phase
    requires 0 < n <= |vs|
  {
    if exists f :: f in r.failures && Holds(r, vs, f, n) then Spiraling
    else if exists o :: o in r.objectives && Missed(r.places, vs[n - 1], o, n) then Losing
    else if exists o :: o in r.objectives && !o.params.UnsupportedObjective? then Winning
    else Stabilizing
  }

  predicate Mute(o: Objective) { o.params.UnsupportedObjective? }

  ghost function StatusTold(places: seq<Place>, v: Sight, o: Objective, n: nat): Status {
    if Mute(o) then Unsupported else if Missed(places, v, o, n) then Breached else Met
  }

  /** A stored streak runs exactly while the condition holds, and a stored status is breached exactly while the objective is missed. */
  lemma StoredMeans(r: Rules, vs: seq<Sight>, ss: seq<Snapshot>, n: nat)
    requires RulesOk(r) && AllShow(r, vs, ss) && 0 < n <= |vs|
    ensures var g := JudgedAt(r, ss, n);
      && (forall i :: 0 <= i < |r.failures| ==> (FailureOf(g, r.failures[i].id).streak > 0 <==> Holds(r, vs, r.failures[i], n)))
      && (forall i :: 0 <= i < |r.objectives| ==> ObjectiveOf(g, r.objectives[i].id).status == StatusTold(r.places, vs[n - 1], r.objectives[i], n))
  {
    assert |ss| <= U64_MAX && |vs| == |ss| && Shows(vs[n - 1], ss[n - 1], n) && SortedBy(r.places, PlaceKey);
    hide AllShow, RulesOk, JudgedAt, Holds, Missed, Evaluate, Shows, BreachedOn, LogOf, SortedBy;
    forall i | 0 <= i < |r.failures| ensures FailureOf(JudgedAt(r, ss, n), r.failures[i].id).streak > 0 <==> Holds(r, vs, r.failures[i], n) {
      FailuresKnown(r, ss, n, i);
      BreachMeans(r, vs, ss, r.failures[i], n);
    }
    forall i | 0 <= i < |r.objectives|
      ensures ObjectiveOf(JudgedAt(r, ss, n), r.objectives[i].id).status
        == StatusTold(r.places, vs[n - 1], r.objectives[i], n)
    {
      ObjectivesTold(r, ss, n, i);
      EvaluateMeans(r, vs[n - 1], r.objectives[i], ss[n - 1], n);
    }
  }

  /**
   * While the game is in progress its phase is spiraling exactly if some failure condition holds, else losing exactly
   * if some objective is missed, else winning if there is an objective the engine supports; after that it is the outcome's.
   */
  lemma PhaseMeans(r: Rules, vs: seq<Sight>, ss: seq<Snapshot>, n: nat)
    requires RulesOk(r) && AllShow(r, vs, ss) && 0 < n <= |vs|
    ensures var g := JudgedAt(r, ss, n);
      g.phase == match g.outcome case Won => PhaseWon case Lost(_) => PhaseLost case InProgress => PhaseTold(r, vs, n)
  {
    assert |ss| <= U64_MAX && |vs| == |ss|;
    StoredMeans(r, vs, ss, n);
    IdsOnRun(r, ss, n);
    JudgedUnfold(r, ss, n);
    hide AllShow, RulesOk, JudgedAt, Holds, Missed, JudgeObjectives, JudgeFailures, JudgeVictories;
    var g := JudgedAt(r, ss, n);
    assert forall i :: 0 <= i < |r.failures| ==> r.failures[i] in r.failures;
    assert forall i :: 0 <= i < |r.objectives| ==> r.objectives[i] in r.objectives;
    PhaseSame(r, vs, g, n);
  }

  lemma AnyHolds(r: Rules, vs: seq<Sight>, g: GoalState, n: nat)
    requires 0 < n <= |vs| && OnlyIds(r, g)
    requires forall i :: 0 <= i < |r.failures| ==> (FailureOf(g, r.failures[i].id).streak > 0 <==> Holds(r, vs, r.failures[i], n))
    ensures (exists id :: id in g.failures && g.failures[id].streak > 0) <==> exists f :: f in r.failures && Holds(r, vs, f, n)
  {
    hide Holds;
    if id :| id in g.failures && g.failures[id].streak > 0 {
      var i :| 0 <= i < |r.failures| && r.failures[i].id == id;
      assert r.failures[i] in r.failures;
    }
    if f :| f in r.failures && Holds(r, vs, f, n) {
      var i :| 0 <= i < |r.failures| && r.failures[i] == f;
      assert f.id in g.failures;
    }
  }

  lemma AnyMissed(r: Rules, v: Sight, g: GoalState, n: nat)
    requires OnlyIds(r, g)
    requires forall i :: 0 <= i < |r.objectives| ==> ObjectiveOf(g, r.objectives[i].id).status == StatusTold(r.places, v, r.objectives[i], n)
    ensures (exists id :: id in g.objectives && g.objectives[id].status.Breached?) <==> exists o :: o in r.objectives && Missed(r.places, v, o, n)
  {
    hide Missed;
    if id :| id in g.objectives && g.objectives[id].status.Breached? {
      var i :| 0 <= i < |r.objectives| && r.objectives[i].id == id;
      assert r.objectives[i] in r.objectives;
    }
    if o :| o in r.objectives && Missed(r.places, v, o, n) {
      var i :| 0 <= i < |r.objectives| && r.objectives[i] == o;
      UnsupportedNeverMissed(r.places, v, o, n);
      assert o.id in g.objectives;
    }
  }

  lemma AnySupported(r: Rules)
    ensures (exists i :: 0 <= i < |r.objectives| && Gates(r.objectives[i])) <==> exists o :: o in r.objectives && !o.params.UnsupportedObjective?
  {
    if o :| o in r.objectives && !o.params.UnsupportedObjective? { var i :| 0 <= i < |r.objectives| && r.objectives[i] == o; }
    if i :| 0 <= i < |r.objectives| && Gates(r.objectives[i]) { assert r.objectives[i] in r.objectives; }
  }

  /** Nothing is missed exactly if every supported objective is met. */
  lemma PhaseSame(r: Rules, vs: seq<Sight>, g: GoalState, n: nat)
    requires 0 < n <= |vs| && OnlyIds(r, g)
    requires forall i :: 0 <= i < |r.failures| ==> (FailureOf(g, r.failures[i].id).streak > 0 <==> Holds(r, vs, r.failures[i], n))
    requires forall i :: 0 <= i < |r.objectives| ==> ObjectiveOf(g, r.objectives[i].id).status == StatusTold(r.places, vs[n - 1], r.objectives[i], n)
    ensures g.outcome.InProgress? ==> PhaseOf(r, g) == PhaseTold(r, vs, n)
  {
    AnyHolds(r, vs, g, n);
    AnyMissed(r, vs[n - 1], g, n);
    AnySupported(r);
    hide Holds, Missed, OnlyIds;
    assert forall i :: 0 <= i < |r.objectives| ==> r.objectives[i] in r.objectives;
  }

  lemma UnsupportedNeverMissed(places: seq<Place>, v: Sight, o: Objective, n: nat)
    ensures Missed(places, v, o, n) ==> !o.params.UnsupportedObjective?
  {
  }

  /** Up to the tick that settles the game, the engine's state is the judged one. */
  lemma JudgedWhileOpen(r: Rules, ss: seq<Snapshot>, n: nat)
    requires RulesOk(r) && 0 < n <= |ss| <= U64_MAX && GoalsAt(r, ss, n - 1).outcome.InProgress?
    ensures GoalsAt(r, ss, n) == JudgedAt(r, ss, n)
  {
    hide *;
    OutcomeIsHistory(r, ss, n - 1);
    OneTick(r, ss, n);
  }

  lemma OneTick(r: Rules, ss: seq<Snapshot>, n: nat)
    requires 0 < n <= |ss| <= U64_MAX && GoalsAt(r, ss, n - 1).outcome.InProgress? && GoalsAt(r, ss, n - 1) == JudgedAt(r, ss, n - 1)
    ensures GoalsAt(r, ss, n) == JudgedAt(r, ss, n)
  {
    hide Judge, FreshGoals;
  }
}
