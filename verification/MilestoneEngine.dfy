/** Milestones as the engine runs them, in place, against MilestoneTick. */
module MilestoneEngine {
  import opened Base
  import opened Order
  import opened Sl1Scene
  import opened Milestones
  import opened Sl1State

  ghost predicate Present(ms: seq<Milestone>, states: map<Id, MilestoneState>) {
    forall i :: 0 <= i < |ms| ==> ms[i].id in states
  }

  method EvaluateMilestone(m: Milestone, rt: Sl1RuntimeState, ghost v: Seen, now: u64)
    requires v == rt.MilestoneInputs() && m.id in rt.milestones
    modifies rt`milestones, rt`milestoneEvents
    ensures rt.MilestoneView() == Judge(m, old(rt.MilestoneView()), v, now)
  {
    var entry := rt.milestones[m.id];
    assert rt.milestones[m.id := entry] == rt.milestones;
    if entry.firedAt.Some? { return; }
    if m.trigger.PressureDeactivated? {
      if !entry.armed && m.trigger.pressure in rt.pressure.active {
        rt.milestones := rt.milestones[m.id := entry.(armed := true)];
        return;
      }
      if !entry.armed { return; }
    }
    if !Satisfied(m.trigger, rt.MilestoneInputs()) { return; }
    rt.milestones := rt.milestones[m.id := entry.(firedAt := Some(now))];
    rt.milestoneEvents := rt.milestoneEvents + [Fired(m.id, now)];
  }

  method RunMilestones(s: Scene, rt: Sl1RuntimeState, ghost v: Seen, now: u64)
    requires v == rt.MilestoneInputs() && Present(s.milestones, rt.milestones)
    modifies rt`milestones, rt`milestoneEvents
    ensures rt.MilestoneView() == MilestoneTick(s.milestones, old(rt.MilestoneView()), v, now)
    ensures Present(s.milestones, rt.milestones)
  {
    hide Judge;
    for k := 0 to |s.milestones|
      invariant rt.MilestoneView() == JudgeFirst(s.milestones, k, old(rt.MilestoneView()), v, now)
      invariant Present(s.milestones, rt.milestones)
    {
      JudgeKeeps(s.milestones, s.milestones[k], rt.MilestoneView(), v, now);
      EvaluateMilestone(s.milestones[k], rt, v, now);
    }
  }

  lemma JudgeKeeps(ms: seq<Milestone>, m: Milestone, s: MilestonesState, v: Seen, now: u64)
    requires Present(ms, s.states)
    ensures Present(ms, Judge(m, s, v, now).states)
  {
  }
}
