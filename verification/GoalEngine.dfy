/** Objectives, failure conditions, victory conditions and outcome as the engine runs them, in place, against GoalTick. */
module GoalEngine {
  import opened Base
  import opened Order
  import opened Sl1Scene
  import opened Plants
  import opened Goals
  import opened Sl1State

  /** Nothing the goals insist on looking up is missing. */
  ghost predicate Present(r: Rules, g: GoalState) {
    && (forall i :: 0 <= i < |r.objectives| ==> r.objectives[i].id in g.objectives)
    && (forall i :: 0 <= i < |r.failures| ==> r.failures[i].id in g.failures)
    && (forall i :: 0 <= i < |r.victories| ==> r.victories[i].id in g.victories)
  }

  lemma ObjectivesUnfold(r: Rules, k: nat, g: GoalState, s: Snapshot, now: u64)
    requires k <= |r.objectives|
    ensures JudgeObjectives(r, 0, g, s, now) == g
    ensures k < |r.objectives| ==> JudgeObjectives(r, k + 1, g, s, now) == JudgeObjective(r, r.objectives[k], JudgeObjectives(r, k, g, s, now), s, now)
  {
  }

  lemma FailuresUnfold(r: Rules, k: nat, g: GoalState, s: Snapshot, now: u64)
    requires k <= |r.failures|
    ensures JudgeFailures(r, 0, g, s, now) == g
    ensures k < |r.failures| ==> JudgeFailures(r, k + 1, g, s, now) == JudgeFailure(r, r.failures[k], JudgeFailures(r, k, g, s, now), s, now)
  {
  }

  lemma VictoriesUnfold(r: Rules, k: nat, g: GoalState, now: u64)
    requires k <= |r.victories|
    ensures JudgeVictories(r, 0, g, now) == g
    ensures k < |r.victories| ==> JudgeVictories(r, k + 1, g, now) == JudgeVictory(r.victories[k], JudgeVictories(r, k, g, now), now)
  {
  }

  lemma PresentAt(r: Rules, g: GoalState, k: nat)
    requires Present(r, g)
    ensures k < |r.objectives| ==> r.objectives[k].id in g.objectives
    ensures k < |r.failures| ==> r.failures[k].id in g.failures
    ensures k < |r.victories| ==> r.victories[k].id in g.victories
  {
  }

  // ---- Objectives ----

  method EvaluateObjective(r: Rules, o: Objective, rt: Sl1RuntimeState, ghost s: Snapshot, now: u64)
    requires s == rt.GoalInputs() && o.id in rt.objectives
    modifies rt`objectives, rt`unsupportedObjectivesWarned, rt`goalEvents
    ensures rt.GoalView() == JudgeObjective(r, o, old(rt.GoalView()), s, now)
  {
    hide Evaluate;
    var status := StatusNow(r, o, rt, now);
    var was := rt.objectives[o.id];
    if o.params.UnsupportedObjective? && o.id !in rt.unsupportedObjectivesWarned {
      rt.unsupportedObjectivesWarned := rt.unsupportedObjectivesWarned + {o.id};
      rt.goalEvents := rt.goalEvents + [NotSupported(o.id, now)];
    }
    if was.status != status {
      rt.objectives := rt.objectives[o.id := was.(status := status, lastChange := now)];
      rt.goalEvents := rt.goalEvents + [ObjectiveChanged(o.id, was.status, status, now)];
    }
    if rt.objectives[o.id].status.Breached? {
      rt.objectives := rt.objectives[o.id := rt.objectives[o.id].(breaches := SatAdd(was.breaches, 1))];
    }
  }

  lemma ObjectiveKeeps(r: Rules, o: Objective, g: GoalState, s: Snapshot, now: u64)
    requires Present(r, g)
    ensures Present(r, JudgeObjective(r, o, g, s, now))
  {
  }

  method EvaluateObjectives(r: Rules, rt: Sl1RuntimeState, ghost s: Snapshot, now: u64)
    requires s == rt.GoalInputs() && Present(r, rt.GoalView())
    modifies rt`objectives, rt`unsupportedObjectivesWarned, rt`goalEvents
    ensures rt.GoalView() == JudgeObjectives(r, |r.objectives|, old(rt.GoalView()), s, now)
    ensures Present(r, rt.GoalView())
  {
    hide JudgeObjectives, JudgeObjective, Present;
    ObjectivesUnfold(r, 0, rt.GoalView(), s, now);
    for k := 0 to |r.objectives|
      invariant rt.GoalView() == JudgeObjectives(r, k, old(rt.GoalView()), s, now) && Present(r, rt.GoalView())
    {
      PresentAt(r, rt.GoalView(), k);
      ObjectivesUnfold(r, k, old(rt.GoalView()), s, now);
      ObjectiveKeeps(r, r.objectives[k], rt.GoalView(), s, now);
      EvaluateObjective(r, r.objectives[k], rt, s, now);
    }
  }

  /** The age comparison does not depend on whether the tag has already turned stale. */
  method StatusNow(r: Rules, o: Objective, rt: Sl1RuntimeState, now: u64) returns (status: Status)
    ensures status == Evaluate(r, o, rt.GoalInputs(), now)
  {
    match o.params {
      case KeepFresh(place, thing, maxStale) =>
        status := Breached;
        if (place, thing) in rt.freshness {
          match rt.freshness[(place, thing)] {
            case Ok(lastSet) => if SatSub(now, lastSet) <= maxStale { status := Met; }
            case Stale(lastSet) => if SatSub(now, lastSet) <= maxStale { status := Met; }
            case _ =>
          }
        }
      case CompleteJobs(demand, maxMissed) =>
        var dropped := if demand in rt.demand then rt.demand[demand].dropped else 0;
        status := if dropped <= maxMissed then Met else Breached;
      case MaintainUtilization(place, bucket, min, max) =>
        var cap := BaseCapacity(r.places, place, bucket);
        if cap == 0 { return if min == 0 then Met else Breached; }
        var percent := UsedPercent(Get(rt.placeCapacityUsed, (place, bucket)), cap);
        status := if percent >= min && percent <= max then Met else Breached;
      case UnsupportedObjective => status := Unsupported;
    }
  }

  // ---- Failure conditions ----

  method IsBreached(r: Rules, f: Failure, rt: Sl1RuntimeState, now: u64) returns (b: bool)
    ensures b == Breaches(r, f, rt.GoalInputs(), rt.objectives, now)
  {
    match f.params {
      case StaleTarget(place, thing, threshold, _) =>
        b := true;
        if (place, thing) in rt.freshness {
          match rt.freshness[(place, thing)] {
            case Ok(lastSet) => b := SatSub(now, lastSet) > threshold;
            case Stale(lastSet) => b := SatSub(now, lastSet) > threshold;
            case _ =>
          }
        }
      case PlaceState(place, state, _) =>
        var p := FindPlace(r.places, place);
        if p.None? || state !in p.value.states { return false; }
        match p.value.states[state] {
          case UsedPercentGte(bucket, threshold) =>
            var cap := Get(p.value.capacity, bucket);
            var percent := if cap == 0 then 0 else UsedPercent(Get(rt.placeCapacityUsed, (place, bucket)), cap);
            b := percent >= threshold;
          case OverloadedTicksGt(_) => b := false;
        }
      case BreachCount(objective, maxCount) =>
        b := objective in rt.objectives && rt.objectives[objective].breaches > maxCount;
    }
  }

  method EvaluateFailure(r: Rules, f: Failure, rt: Sl1RuntimeState, ghost s: Snapshot, now: u64)
    requires s == rt.GoalInputs() && f.id in rt.failureConditions
    modifies rt`failureConditions, rt`goalEvents
    ensures rt.GoalView() == JudgeFailure(r, f, old(rt.GoalView()), s, now)
  {
    hide Breaches;
    var breached := IsBreached(r, f, rt, now);
    var was := rt.failureConditions[f.id];
    rt.failureConditions := rt.failureConditions[f.id := was.(streak := if breached then SatAdd(was.streak, 1) else 0)];
    if was.firedAt.None? && rt.failureConditions[f.id].streak > Grace(f.params) {
      rt.failureConditions := rt.failureConditions[f.id := rt.failureConditions[f.id].(firedAt := Some(now))];
      rt.goalEvents := rt.goalEvents + [FailureFired(f.id, now)];
    }
  }

  lemma FailureKeeps(r: Rules, f: Failure, g: GoalState, s: Snapshot, now: u64)
    requires Present(r, g)
    ensures Present(r, JudgeFailure(r, f, g, s, now))
  {
  }

  method EvaluateFailures(r: Rules, rt: Sl1RuntimeState, ghost s: Snapshot, now: u64)
    requires s == rt.GoalInputs() && Present(r, rt.GoalView())
    modifies rt`failureConditions, rt`goalEvents
    ensures rt.GoalView() == JudgeFailures(r, |r.failures|, old(rt.GoalView()), s, now)
    ensures Present(r, rt.GoalView())
  {
    hide JudgeFailures, JudgeFailure, Present;
    FailuresUnfold(r, 0, rt.GoalView(), s, now);
    for k := 0 to |r.failures|
      invariant rt.GoalView() == JudgeFailures(r, k, old(rt.GoalView()), s, now) && Present(r, rt.GoalView())
    {
      PresentAt(r, rt.GoalView(), k);
      FailuresUnfold(r, k, old(rt.GoalView()), s, now);
      FailureKeeps(r, r.failures[k], rt.GoalView(), s, now);
      EvaluateFailure(r, r.failures[k], rt, s, now);
    }
  }

  // ---- Victory conditions, outcome and phase ----

  method EvaluateVictories(r: Rules, rt: Sl1RuntimeState, now: u64)
    requires Present(r, rt.GoalView())
    modifies rt`victoryConditions, rt`goalEvents
    ensures rt.GoalView() == JudgeVictories(r, |r.victories|, old(rt.GoalView()), now)
    ensures Present(r, rt.GoalView())
  {
    hide JudgeVictories;
    VictoriesUnfold(r, 0, rt.GoalView(), now);
    for k := 0 to |r.victories|
      invariant rt.GoalView() == JudgeVictories(r, k, old(rt.GoalView()), now) && Present(r, rt.GoalView())
    {
      VictoriesUnfold(r, k, old(rt.GoalView()), now);
      var v := r.victories[k];
      if now >= v.atTick && rt.victoryConditions[v.id].None? {
        rt.victoryConditions := rt.victoryConditions[v.id := Some(now)];
        rt.goalEvents := rt.goalEvents + [VictoryMet(v.id, now)];
      }
    }
  }

  /** The lowest fired condition decides, however late in the run it is looked at. */
  method RecomputeOutcome(r: Rules, rt: Sl1RuntimeState, now: u64)
    modifies rt`gameOutcome, rt`goalEvents
    ensures rt.GoalView() == Settle(r, old(rt.GoalView()), now)
  {
    var outcome: Option<Outcome> := None;
    var i := 0;
    while i < |r.failures| && outcome.None?
      invariant i <= |r.failures|
      invariant outcome.None? ==> FirstFired(r.failures, rt.GoalView()) == FirstFired(r.failures[i..], rt.GoalView())
      invariant outcome.Some? ==> outcome.value.Lost? && FirstFired(r.failures, rt.GoalView()) == Some(outcome.value.failure)
    {
      var f := r.failures[i];
      assert r.failures[i..][0] == f && r.failures[i..][1..] == r.failures[i + 1..];
      if f.id in rt.failureConditions && rt.failureConditions[f.id].firedAt.Some? {
        outcome := Some(Lost(f.id));
      }
      i := i + 1;
    }
    if outcome.None? && r.victories != [] {
      var met := AllVictoriesMet(r, rt);
      if met { outcome := Some(Won); }
    }
    var settled := if outcome.Some? then outcome.value else InProgress;
    if settled != rt.gameOutcome {
      rt.goalEvents := rt.goalEvents + [OutcomeChanged(settled, now)];
      rt.gameOutcome := settled;
    }
  }

  method AllVictoriesMet(r: Rules, rt: Sl1RuntimeState) returns (met: bool)
    ensures met == AllMet(r.victories, rt.GoalView())
  {
    for i := 0 to |r.victories|
      invariant forall j :: 0 <= j < i ==> VictoryOf(rt.GoalView(), r.victories[j].id).Some?
    {
      var id := r.victories[i].id;
      if id !in rt.victoryConditions || rt.victoryConditions[id].None? { return false; }
    }
    return true;
  }

  method RunGoals(sc: Scene, rt: Sl1RuntimeState, ghost s: Snapshot, now: u64)
    requires s == rt.GoalInputs() && Present(RulesOf(sc), rt.GoalView())
    modifies rt`objectives, rt`failureConditions, rt`victoryConditions, rt`gameOutcome, rt`gamePhase, rt`unsupportedObjectivesWarned, rt`goalEvents
    ensures rt.GoalView() == GoalTick(RulesOf(sc), old(rt.GoalView()), s, now)
    ensures Present(RulesOf(sc), rt.GoalView())
  {
    hide JudgeObjectives, JudgeFailures, JudgeVictories, Settle, PhaseOf, Present;
    if !rt.gameOutcome.InProgress? { return; }
    var r := RulesOf(sc);
    EvaluateObjectives(r, rt, s, now);
    EvaluateFailures(r, rt, s, now);
    EvaluateVictories(r, rt, now);
    SettleKeeps(r, rt.GoalView(), now);
    RecomputeOutcome(r, rt, now);
    rt.gamePhase := PhaseOf(r, rt.GoalView());
  }

  lemma SettleKeeps(r: Rules, g: GoalState, now: u64)
    requires Present(r, g)
    ensures forall phase :: Present(r, Settle(r, g, now).(phase := phase))
  {
  }
}
