/** Scene agents: cadence, validation of what a backend proposes, and the one effect, pausing a demand. */
module Agents {
  import opened Base
  import opened Order

  const MAX_COOLDOWN: nat := 1_000_000
  const MAX_INTERVAL: nat := 1_000_000

  datatype AgentKind = Mock | Builtin | Llm
  datatype ActionKind = SetJobPriority | ThrottleDemand | ScalePlaceCapacity | WarmCache | PrioritizeTransform | PauseReportRefresh
  datatype Target = AtPlace(id: Id) | AtTransform(id: Id) | AtDemand(id: Id) | AtDashboard(id: Id) | AtMetric(id: Id)
  datatype Action = Throttle(demand: Id, pause: u64) {
    function Kind(): ActionKind { ThrottleDemand }
    function Cost(): u64 { 1 }
  }
  datatype Agent = Agent(
    id: Id, kind: AgentKind, interval: pos64, scope: seq<Target>, allowed: seq<ActionKind>, maxCost: u64, cooldown: u64, weights: map<Id, real>)

  datatype AgentState = AgentState(lastDecision: Option<u64>, cooldownUntil: Option<u64>, llmTold: bool)

  datatype Reason =
    | ActionNotAllowed | OutOfScope | TargetUnknown | CostExceedsBudget | Cooldown | EffectUnsupported | InvalidParameter

  datatype AgentEvent =
    | LlmDisabled(agent: Id, tick: u64)
    | Rejected(agent: Id, kind: ActionKind, target: Id, reason: Reason, tick: u64)
    | Applied(agent: Id, kind: ActionKind, target: Id, cost: u64, tick: u64)

  datatype AgentsState = AgentsState(agents: map<Id, AgentState>, pauses: map<Id, u64>, events: seq<AgentEvent>)

  /** A backend's answer to an agent on a tick. */
  type Backend = (Id, u64) -> Option<Action>

  function AgentKey(a: Agent): string { a.id }

  ghost predicate AgentsOk(agents: seq<Agent>) {
    SortedBy(agents, AgentKey)
    && forall i :: 0 <= i < |agents| ==> agents[i].interval <= MAX_INTERVAL && agents[i].cooldown <= MAX_COOLDOWN
  }

  predicate ShouldFire(a: Agent, st: AgentState, now: u64)
  {
    if now == 0 then false
    else match st.lastDecision
      case None => now % a.interval == 0
      case Some(last) => now >= SatAdd(last, a.interval)
  }

  /** The checks behind the cooldown, in the order they are made. */
  function Objection(a: Agent, demands: seq<Id>, action: Action): Option<Reason> {
    if action.Kind() !in a.allowed then Some(ActionNotAllowed)
    else if action.demand !in demands then Some(TargetUnknown)
    else if AtDemand(action.demand) !in a.scope then Some(OutOfScope)
    else if action.Cost() > a.maxCost then Some(CostExceedsBudget)
    else if action.pause == 0 || action.pause > MAX_COOLDOWN then Some(InvalidParameter)
    else None
  }

  function Verdict(a: Agent, demands: seq<Id>, action: Action, st: AgentState, now: u64): Option<Reason> {
    if st.cooldownUntil.Some? && now < st.cooldownUntil.value then Some(Cooldown) else Objection(a, demands, action)
  }

  /** The pause ends, exclusively, one tick after the last paused one; the longest pause wins. */
  function Pause(pauses: map<Id, u64>, action: Action, now: u64): map<Id, u64> {
    pauses[action.demand := Max(Get(pauses, action.demand), SatAdd(SatAdd(now, 1), action.pause))]
  }

  function Decide(a: Agent, demands: seq<Id>, s: AgentsState, ask: Backend, now: u64): AgentsState
  {
    if a.id !in s.agents || !ShouldFire(a, s.agents[a.id], now) then s
    else
      var st := s.agents[a.id];
      var st1 := st.(lastDecision := Some(now));
      if a.kind.Llm? then
        s.(agents := s.agents[a.id := st1.(llmTold := true)],
           events := if st.llmTold then s.events else s.events + [LlmDisabled(a.id, now)])
      else
        var proposed := ask(a.id, now);
        if proposed.None? then s.(agents := s.agents[a.id := st1])
        else
          var action := proposed.value;
          var objection := Verdict(a, demands, action, st, now);
          if objection.Some? then
            s.(agents := s.agents[a.id := st1],
               events := s.events + [Rejected(a.id, action.Kind(), action.demand, objection.value, now)])
          else
            s.(agents := s.agents[a.id := if a.cooldown > 0 then st1.(cooldownUntil := Some(SatAdd(now, a.cooldown))) else st1],
               pauses := Pause(s.pauses, action, now),
               events := s.events + [Applied(a.id, action.Kind(), action.demand, action.Cost(), now)])
  }

  function DecideFirst(agents: seq<Agent>, k: nat, demands: seq<Id>, s: AgentsState, ask: Backend, now: u64): AgentsState
    requires k <= |agents|
  {
    if k == 0 then s else Decide(agents[k - 1], demands, DecideFirst(agents, k - 1, demands, s, ask, now), ask, now)
  }

  // ---- The demand side of a pause ----

  predicate Paused(pauses: map<Id, u64>, demand: Id, now: u64) {
    demand in pauses && now < pauses[demand]
  }

  /** Reading a pause that is over forgets it. */
  function Prune(pauses: map<Id, u64>, demand: Id, now: u64): map<Id, u64> {
    if demand in pauses && now >= pauses[demand] then pauses - {demand} else pauses
  }

  function PruneFirst(demands: seq<Id>, k: nat, pauses: map<Id, u64>, now: u64): map<Id, u64>
    requires k <= |demands|
  {
    if k == 0 then pauses else Prune(PruneFirst(demands, k - 1, pauses, now), demands[k - 1], now)
  }

  lemma {:induction false} PruneKeeps(demands: seq<Id>, k: nat, pauses: map<Id, u64>, now: u64, d: Id, m: u64)
    requires k <= |demands| && m >= now
    ensures Paused(PruneFirst(demands, k, pauses, now), d, m) <==> Paused(pauses, d, m)
  {
    if k > 0 { PruneKeeps(demands, k - 1, pauses, now, d, m); }
  }

  /** What a tick does to agents and pauses: demand reads the pauses first, agents decide later. */
  function AgentTick(agents: seq<Agent>, demands: seq<Id>, s: AgentsState, ask: Backend, now: u64): AgentsState
  {
    DecideFirst(agents, |agents|, demands, s.(pauses := PruneFirst(demands, |demands|, s.pauses, now)), ask, now)
  }

  function FreshAgents(agents: seq<Agent>): AgentsState {
    AgentsState(map a | a in agents :: a.id := AgentState(None, None, false), map[], [])
  }
}
