/** Scene agents as the engine runs them, in place, against AgentTick. */
module AgentEngine {
  import opened Base
  import opened Order
  import opened Sl1Scene
  import opened Agents
  import opened Sl1State
  import DemandEngine

  method TargetDeclared(demands: seq<Id>, id: Id) returns (b: bool)
    ensures b == (id in demands)
  {
    for i := 0 to |demands|
      invariant id !in demands[..i]
    {
      if demands[i] == id { return true; }
    }
    return false;
  }

  /** The checks in the order they are made; the first that fails names the rejection. */
  method Validate(a: Agent, demands: seq<Id>, action: Action, st: AgentState, now: u64) returns (objection: Option<Reason>)
    ensures objection == Verdict(a, demands, action, st, now)
  {
    if st.cooldownUntil.Some? && now < st.cooldownUntil.value { return Some(Cooldown); }
    if action.Kind() !in a.allowed { return Some(ActionNotAllowed); }
    var declared := TargetDeclared(demands, action.demand);
    if !declared { return Some(TargetUnknown); }
    if AtDemand(action.demand) !in a.scope { return Some(OutOfScope); }
    if action.Cost() > a.maxCost { return Some(CostExceedsBudget); }
    if action.pause == 0 || action.pause > MAX_COOLDOWN { return Some(InvalidParameter); }
    return None;
  }

  method DecideOne(a: Agent, demands: seq<Id>, rt: Sl1RuntimeState, ask: Backend, now: u64)
    modifies rt`agents, rt`agentDemandPauses, rt`agentEvents
    ensures rt.AgentView() == Decide(a, demands, old(rt.AgentView()), ask, now)
  {
    hide Verdict;
    if a.id !in rt.agents { return; }
    var st := rt.agents[a.id];
    if !ShouldFire(a, st, now) { return; }
    if a.kind.Llm? {
      rt.agents := rt.agents[a.id := st.(lastDecision := Some(now))];
      if !st.llmTold { rt.agentEvents := rt.agentEvents + [LlmDisabled(a.id, now)]; }
      rt.agents := rt.agents[a.id := rt.agents[a.id].(llmTold := true)];
      return;
    }
    var proposed := ask(a.id, now);
    rt.agents := rt.agents[a.id := st.(lastDecision := Some(now))];
    if proposed.None? { return; }
    var action := proposed.value;
    var objection := Validate(a, demands, action, st, now);
    if objection.Some? {
      rt.agentEvents := rt.agentEvents + [Rejected(a.id, action.Kind(), action.demand, objection.value, now)];
      return;
    }
    ApplyAction(action, rt, now);
    if a.cooldown > 0 {
      rt.agents := rt.agents[a.id := rt.agents[a.id].(cooldownUntil := Some(SatAdd(now, a.cooldown)))];
    }
    rt.agentEvents := rt.agentEvents + [Applied(a.id, action.Kind(), action.demand, action.Cost(), now)];
  }

  method ApplyAction(action: Action, rt: Sl1RuntimeState, now: u64)
    modifies rt`agentDemandPauses
    ensures rt.agentDemandPauses == Pause(old(rt.agentDemandPauses), action, now)
  {
    var until := SatAdd(SatAdd(now, 1), action.pause);
    if action.demand !in rt.agentDemandPauses { rt.agentDemandPauses := rt.agentDemandPauses[action.demand := 0]; }
    rt.agentDemandPauses := rt.agentDemandPauses[action.demand := Max(rt.agentDemandPauses[action.demand], until)];
  }

  method RunAgents(s: Scene, rt: Sl1RuntimeState, ask: Backend, now: u64)
    modifies rt`agents, rt`agentDemandPauses, rt`agentEvents
    ensures rt.AgentView() == DecideFirst(s.agents, |s.agents|, DemandEngine.DemandIds(s.demand), old(rt.AgentView()), ask, now)
  {
    hide Decide;
    var demands := DemandEngine.DemandIds(s.demand);
    for k := 0 to |s.agents|
      invariant rt.AgentView() == DecideFirst(s.agents, k, demands, old(rt.AgentView()), ask, now)
    {
      DecideOne(s.agents[k], demands, rt, ask, now);
    }
  }
}
