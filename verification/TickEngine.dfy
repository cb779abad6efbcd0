/** One whole tick, in the order of the engine, and runs of ticks. */
module TickEngine {
  import opened Base
  import opened Order
  import opened Sl1Scene
  import opened Sl1State
  import Pressures
  import Plants
  import Demands
  import Goals
  import Boards
  import Agents
  import Milestones
  import PressureEngine
  import TransformEngine
  import DemandEngine
  import GoalEngine
  import BoardEngine
  import AgentEngine
  import MilestoneEngine

  /** The whole state of a scene, as a value. */
  datatype World = World(
    plant: Plants.Plant, demand: map<Id, Demands.DemandState>, said: seq<DemandMessage>, pressure: Pressures.PressureState,
    goals: Goals.GoalState, boards: Boards.BoardState, agents: Agents.AgentsState, milestones: Milestones.MilestonesState)

  ghost function WorldOf(rt: Sl1RuntimeState): World
    reads rt
  {
    World(rt.PlantView(), rt.demand, rt.demandMessages, rt.pressure, rt.GoalView(), rt.BoardView(), rt.AgentView(), rt.MilestoneView())
  }

  ghost function StartOf(s: Scene): World {
    World(Plants.Opening(LayoutOf(s)), NoDemands(s.demand), [], Pressures.Calm, Goals.FreshGoals(RulesOf(s)),
          Boards.FreshBoards(BoardsOf(s)), Agents.FreshAgents(s.agents), Milestones.FreshMilestones(s.milestones))
  }

  // ---- The parts of a tick, each seeing what ran before it ----

  ghost function WeatherOn(s: Scene, w: World, now: u64): Plants.Weather {
    var r := Pressures.PressureTick(s.pressure, w.pressure, now);
    Plants.Weather(r.0.quota, r.1)
  }

  function SnapshotOf(plant: Plants.Plant, demand: map<Id, Demands.DemandState>): Goals.Snapshot {
    Goals.Snapshot(plant.stamps, plant.used, map id | id in demand :: demand[id].dropped)
  }

  function ViewOf(plant: Plants.Plant): Boards.View { Boards.View(plant.stamps, plant.used, plant.inv) }

  function SeenOf(pressure: Pressures.PressureState, boards: Boards.BoardState): Milestones.Seen {
    Milestones.Seen(pressure.active.Keys, boards.metrics, boards.dashboards)
  }

  function MarketOf(w: World): DemandEngine.Market {
    DemandEngine.Market(w.agents.pauses, w.pressure.growth, w.plant.inv)
  }

  /** Pressure, ageing and transforms. */
  ghost function PlantStep(s: Scene, w: World, now: u64): World {
    w.(pressure := Pressures.PressureTick(s.pressure, w.pressure, now).0,
       plant := Plants.PlantTick(LayoutOf(s), w.plant, WeatherOn(s, w, now), now))
  }

  /** Demand reads the pauses and forgets those that are over. */
  ghost function DemandStep(s: Scene, w: World, now: u64): World {
    var r := DemandEngine.DemandFirst(s.demand, |s.demand|, w.demand, MarketOf(w), now);
    w.(demand := r.0, said := w.said + r.1,
       agents := w.agents.(pauses := Agents.PruneFirst(DemandEngine.DemandIds(s.demand), |s.demand|, w.agents.pauses, now)))
  }

  /** Goals and boards look at the plant and the demands as this tick has left them. */
  ghost function JudgeStep(s: Scene, w: World, now: u64): World {
    w.(goals := Goals.GoalTick(RulesOf(s), w.goals, SnapshotOf(w.plant, w.demand), now),
       boards := Boards.BoardTick(BoardsOf(s), s.places, w.boards, ViewOf(w.plant), now))
  }

  /** Agents decide after everything else has been seen; milestones come last. */
  ghost function ActStep(s: Scene, w: World, ask: Agents.Backend, now: u64): World {
    w.(agents := Agents.DecideFirst(s.agents, |s.agents|, DemandEngine.DemandIds(s.demand), w.agents, ask, now),
       milestones := Milestones.MilestoneTick(s.milestones, w.milestones, SeenOf(w.pressure, w.boards), now))
  }

  ghost function Next(s: Scene, w: World, ask: Agents.Backend, now: u64): World {
    ActStep(s, JudgeStep(s, DemandStep(s, PlantStep(s, w, now), now), now), ask, now)
  }

  // ---- What a state must be to be ticked ----

  ghost predicate HasTransforms(s: Scene, states: map<Id, Plants.TState>) {
    forall id :: id in states <==> exists t :: t in s.transforms && t.id == id
  }

  /** Every stored map has the ids the engine will look up. */
  ghost predicate Complete(s: Scene, w: World) {
    && HasTransforms(s, w.plant.states)
    && DemandEngine.AllPresent(s.demand, w.demand)
    && GoalEngine.Present(RulesOf(s), w.goals)
    && BoardEngine.Present(BoardsOf(s), w.boards)
    && MilestoneEngine.Present(s.milestones, w.milestones.states)
  }

  /** Complete, and with a message channel that tells the history of the transforms. */
  ghost predicate Ready(s: Scene, rt: Sl1RuntimeState)
    reads rt
  {
    Complete(s, WorldOf(rt)) && rt.transformMessages == MessagesOf(rt.history)
  }

  /** What the value of a state shows of its fields. */
  lemma Parts(rt: Sl1RuntimeState)
    ensures WorldOf(rt)
      == World(rt.PlantView(), rt.demand, rt.demandMessages, rt.pressure, rt.GoalView(), rt.BoardView(), rt.AgentView(), rt.MilestoneView())
    ensures rt.PlantView().states == rt.transforms && rt.MilestoneView().states == rt.milestones
    ensures rt.AgentView() == Agents.AgentsState(rt.agents, rt.agentDemandPauses, rt.agentEvents)
    ensures MarketOf(WorldOf(rt)) == DemandEngine.Market(rt.agentDemandPauses, rt.pressure.growth, rt.inventories)
    ensures rt.GoalInputs() == SnapshotOf(rt.PlantView(), rt.demand)
    ensures rt.BoardInputs() == ViewOf(rt.PlantView())
    ensures rt.MilestoneInputs() == SeenOf(rt.pressure, rt.BoardView())
  {
  }

  lemma ReadyGives(s: Scene, rt: Sl1RuntimeState)
    ensures Ready(s, rt) <==>
      && HasTransforms(s, rt.transforms) && DemandEngine.AllPresent(s.demand, rt.demand)
      && GoalEngine.Present(RulesOf(s), rt.GoalView()) && BoardEngine.Present(BoardsOf(s), rt.BoardView())
      && MilestoneEngine.Present(s.milestones, rt.milestones) && rt.transformMessages == MessagesOf(rt.history)
  {
    Parts(rt);
    hide HasTransforms, DemandEngine.AllPresent, GoalEngine.Present, BoardEngine.Present, MilestoneEngine.Present, RulesOf, BoardsOf, MessagesOf;
  }

  // ---- The steps, in place ----

  method RunPressureAndTransforms(s: Scene, rt: Sl1RuntimeState, now: u64)
    requires TransformsOk(s.transforms) && HasTransforms(s, rt.transforms) && rt.transformMessages == MessagesOf(rt.history)
    modifies rt`pressure, rt`inventories, rt`freshness, rt`transforms, rt`placeCapacityUsed, rt`pendingOutputs, rt`transformMessages, rt`history
    ensures rt.pressure == Pressures.PressureTick(s.pressure, old(rt.pressure), now).0
    ensures var r := Pressures.PressureTick(s.pressure, old(rt.pressure), now);
      rt.PlantView() == Plants.PlantTick(LayoutOf(s), old(rt.PlantView()), Plants.Weather(r.0.quota, r.1), now)
    ensures HasTransforms(s, rt.transforms) && rt.transformMessages == MessagesOf(rt.history)
  {
    hide *;
    ghost var r := Pressures.PressureTick(s.pressure, rt.pressure, now);
    ghost var p := rt.PlantView();
    PlantFields(rt);
    PressureEngine.RunPressure(s, rt, now);
    TransformEngine.AgeFreshness(s, rt, now);
    PlantUnfold(s, p, Plants.Weather(r.0.quota, r.1), now);
    PlantFields(rt);
    RunAnyTransforms(s, rt, now);
  }

  lemma PlantFields(rt: Sl1RuntimeState)
    ensures rt.PlantView() == Plants.Plant(rt.inventories, rt.freshness, rt.placeCapacityUsed, rt.pendingOutputs, rt.transforms, rt.history)
  {
  }

  lemma PlantUnfold(s: Scene, p: Plants.Plant, w: Plants.Weather, now: u64)
    ensures Plants.PlantTick(LayoutOf(s), p, w, now) == Plants.ProcessFirst(s.transforms, |s.transforms|, CapsOf(s.places), w.quota,
      Plants.Plant(Plants.InjectAll(p.inv, CapsOf(s.places).storage, w.requests), Plants.Age(p.stamps, LayoutOf(s).budgets, now),
                   p.used, p.pend, p.states, p.history), now)
  {
    hide Plants.ProcessFirst, CapsOf, Plants.InjectAll, Plants.Age;
  }

  lemma {:induction false} StatesStay(ts: seq<Transform>, k: nat, caps: Plants.Caps, quota: map<Bucket, nat>, p: Plants.Plant, now: u64)
    requires k <= |ts| && forall i :: 0 <= i < |ts| ==> ts[i].id in p.states
    ensures Plants.ProcessFirst(ts, k, caps, quota, p, now).states.Keys == p.states.Keys
  {
    hide Plants.Advance, Plants.Trigger, Plants.TryResult;
    if k > 0 { StatesStay(ts, k - 1, caps, quota, p, now); }
  }

  lemma StatesKept(s: Scene, caps: Plants.Caps, quota: map<Bucket, nat>, p: Plants.Plant, now: u64)
    ensures s.transforms == [] ==> Plants.ProcessFirst(s.transforms, |s.transforms|, caps, quota, p, now) == p
    ensures HasTransforms(s, p.states) ==> HasTransforms(s, Plants.ProcessFirst(s.transforms, |s.transforms|, caps, quota, p, now).states)
  {
    if HasTransforms(s, p.states) {
      forall i | 0 <= i < |s.transforms| ensures s.transforms[i].id in p.states {
        assert s.transforms[i] in s.transforms;
      }
      StatesStay(s.transforms, |s.transforms|, caps, quota, p, now);
    }
  }

  /** Skipped when the scene has no transforms. */
  method RunAnyTransforms(s: Scene, rt: Sl1RuntimeState, now: u64)
    requires TransformsOk(s.transforms) && HasTransforms(s, rt.transforms) && rt.transformMessages == MessagesOf(rt.history)
    modifies rt`inventories, rt`freshness, rt`transforms, rt`placeCapacityUsed, rt`pendingOutputs, rt`transformMessages, rt`history
    ensures rt.PlantView() == Plants.ProcessFirst(s.transforms, |s.transforms|, CapsOf(s.places), rt.pressure.quota, old(rt.PlantView()), now)
    ensures HasTransforms(s, rt.transforms) && rt.transformMessages == MessagesOf(rt.history)
  {
    hide Plants.ProcessFirst, CapsOf, MessagesOf, TransformsOk;
    StatesKept(s, CapsOf(s.places), rt.pressure.quota, rt.PlantView(), now);
    if s.transforms != [] {
      TransformEngine.RunTransforms(s, rt, now);
    }
    PlantFields(rt);
  }

  lemma PlantStepIs(s: Scene, w: World, r: World, now: u64)
    requires var p := Pressures.PressureTick(s.pressure, w.pressure, now);
      r.pressure == p.0 && r.plant == Plants.PlantTick(LayoutOf(s), w.plant, Plants.Weather(p.0.quota, p.1), now)
    requires r == w.(pressure := r.pressure, plant := r.plant)
    ensures r == PlantStep(s, w, now)
  {
    hide Plants.PlantTick, Pressures.PressureTick, LayoutOf;
  }

  method PlantPhase(s: Scene, rt: Sl1RuntimeState, now: u64)
    requires TransformsOk(s.transforms) && Ready(s, rt)
    modifies rt
    ensures WorldOf(rt) == PlantStep(s, old(WorldOf(rt)), now) && Ready(s, rt)
  {
    hide *;
    ghost var w := WorldOf(rt);
    Parts(rt);
    ReadyGives(s, rt);
    RunPressureAndTransforms(s, rt, now);
    Parts(rt);
    ReadyGives(s, rt);
    PlantStepIs(s, w, WorldOf(rt), now);
  }

  lemma DemandStepIs(s: Scene, w: World, r: World, now: u64)
    requires r.demand == DemandEngine.DemandFirst(s.demand, |s.demand|, w.demand, MarketOf(w), now).0
    requires r.said == w.said + DemandEngine.DemandFirst(s.demand, |s.demand|, w.demand, MarketOf(w), now).1
    requires r.agents == w.agents.(pauses := Agents.PruneFirst(DemandEngine.DemandIds(s.demand), |s.demand|, w.agents.pauses, now))
    requires r == w.(demand := r.demand, said := r.said, agents := r.agents)
    ensures r == DemandStep(s, w, now)
  {
    hide DemandEngine.DemandFirst, Agents.PruneFirst, DemandEngine.DemandIds, MarketOf;
  }

  lemma AllPresentSame(ds: seq<Demand>, a: map<Id, Demands.DemandState>, b: map<Id, Demands.DemandState>)
    requires a.Keys == b.Keys
    ensures DemandEngine.AllPresent(ds, a) <==> DemandEngine.AllPresent(ds, b)
  {
  }

  method DemandPhase(s: Scene, rt: Sl1RuntimeState, now: u64)
    requires Ready(s, rt)
    modifies rt
    ensures WorldOf(rt) == DemandStep(s, old(WorldOf(rt)), now) && Ready(s, rt)
  {
    hide *;
    ghost var w, demand := WorldOf(rt), rt.demand;
    Parts(rt);
    ReadyGives(s, rt);
    DemandEngine.RunDemand(s, rt, MarketOf(w), now);
    Parts(rt);
    ReadyGives(s, rt);
    AllPresentSame(s.demand, demand, rt.demand);
    DemandStepIs(s, w, WorldOf(rt), now);
  }

  lemma JudgeStepIs(s: Scene, w: World, r: World, now: u64)
    requires r.goals == Goals.GoalTick(RulesOf(s), w.goals, SnapshotOf(w.plant, w.demand), now)
    requires r.boards == Boards.BoardTick(BoardsOf(s), s.places, w.boards, ViewOf(w.plant), now)
    requires r == w.(goals := r.goals, boards := r.boards)
    ensures r == JudgeStep(s, w, now)
  {
    hide Goals.GoalTick, Boards.BoardTick, RulesOf, BoardsOf, SnapshotOf, ViewOf;
  }

  method JudgePhase(s: Scene, rt: Sl1RuntimeState, now: u64)
    requires Boards.BoardsOk(BoardsOf(s), s.places) && Ready(s, rt)
    modifies rt
    ensures WorldOf(rt) == JudgeStep(s, old(WorldOf(rt)), now) && Ready(s, rt)
  {
    hide *;
    ghost var w := WorldOf(rt);
    Parts(rt);
    ReadyGives(s, rt);
    GoalEngine.RunGoals(s, rt, rt.GoalInputs(), now);
    BoardEngine.RunBoards(s, rt, rt.BoardInputs(), now);
    Parts(rt);
    ReadyGives(s, rt);
    JudgeStepIs(s, w, WorldOf(rt), now);
  }

  lemma ActStepIs(s: Scene, w: World, r: World, ask: Agents.Backend, now: u64)
    requires r.agents == Agents.DecideFirst(s.agents, |s.agents|, DemandEngine.DemandIds(s.demand), w.agents, ask, now)
    requires r.milestones == Milestones.MilestoneTick(s.milestones, w.milestones, SeenOf(w.pressure, w.boards), now)
    requires r == w.(agents := r.agents, milestones := r.milestones)
    ensures r == ActStep(s, w, ask, now)
  {
    hide Agents.DecideFirst, Milestones.MilestoneTick, DemandEngine.DemandIds, SeenOf;
  }

  method ActPhase(s: Scene, rt: Sl1RuntimeState, ask: Agents.Backend, now: u64)
    requires Ready(s, rt)
    modifies rt
    ensures WorldOf(rt) == ActStep(s, old(WorldOf(rt)), ask, now) && Ready(s, rt)
  {
    hide *;
    ghost var w := WorldOf(rt);
    Parts(rt);
    ReadyGives(s, rt);
    AgentEngine.RunAgents(s, rt, ask, now);
    MilestoneEngine.RunMilestones(s, rt, rt.MilestoneInputs(), now);
    Parts(rt);
    ReadyGives(s, rt);
    ActStepIs(s, w, WorldOf(rt), ask, now);
  }

  // ---- Keys ----

  /** Every map has exactly the ids its section declares. */
  ghost predicate Keyed(s: Scene, w: World) {
    KeyedExactly(s, w.plant.states, w.demand, w.goals, w.boards, w.agents.agents, w.milestones.states)
  }

  lemma KeyStays<T, V>(m: map<string, V>, items: seq<T>, key: T -> string, k: nat, v: V)
    requires KeyedBy(m, items, key) && k < |items|
    ensures KeyedBy(m[key(items[k]) := v], items, key)
  {
  }

  lemma {:induction false} DemandKeys(ds: seq<Demand>, k: nat, demand: map<Id, Demands.DemandState>, m: DemandEngine.Market, now: u64)
    requires k <= |ds|
    ensures DemandEngine.DemandFirst(ds, k, demand, m, now).0.Keys == demand.Keys
  {
    if k > 0 {
      DemandKeys(ds, k - 1, demand, m, now);
      hide DemandEngine.TickOf;
    }
  }

  lemma {:induction false} ObjectiveKeys(r: Goals.Rules, k: nat, g: Goals.GoalState, s: Goals.Snapshot, now: u64)
    requires k <= |r.objectives| && GoalsKeyed(r, g)
    ensures GoalsKeyed(r, Goals.JudgeObjectives(r, k, g, s, now))
  {
    hide KeyedBy, Goals.Evaluate;
    if k > 0 {
      ObjectiveKeys(r, k - 1, g, s, now);
      var before, after := Goals.JudgeObjectives(r, k - 1, g, s, now), Goals.JudgeObjectives(r, k, g, s, now);
      KeyStays(before.objectives, r.objectives, Goals.ObjectiveKey, k - 1, Goals.ObjectiveOf(after, r.objectives[k - 1].id));
    }
  }

  lemma {:induction false} FailureKeys(r: Goals.Rules, k: nat, g: Goals.GoalState, s: Goals.Snapshot, now: u64)
    requires k <= |r.failures| && GoalsKeyed(r, g)
    ensures GoalsKeyed(r, Goals.JudgeFailures(r, k, g, s, now))
  {
    hide KeyedBy, Goals.Breaches;
    if k > 0 {
      FailureKeys(r, k - 1, g, s, now);
      var before, after := Goals.JudgeFailures(r, k - 1, g, s, now), Goals.JudgeFailures(r, k, g, s, now);
      KeyStays(before.failures, r.failures, Goals.FailureKey, k - 1, Goals.FailureOf(after, r.failures[k - 1].id));
    }
  }

  lemma {:induction false} VictoryKeys(r: Goals.Rules, k: nat, g: Goals.GoalState, now: u64)
    requires k <= |r.victories| && GoalsKeyed(r, g)
    ensures GoalsKeyed(r, Goals.JudgeVictories(r, k, g, now))
  {
    hide KeyedBy;
    if k > 0 {
      VictoryKeys(r, k - 1, g, now);
      KeyStays(Goals.JudgeVictories(r, k - 1, g, now).victories, r.victories, Goals.VictoryKey, k - 1, Some(now));
    }
  }

  lemma GoalKeys(r: Goals.Rules, g: Goals.GoalState, s: Goals.Snapshot, now: u64)
    requires GoalsKeyed(r, g)
    ensures GoalsKeyed(r, Goals.GoalTick(r, g, s, now))
  {
    hide KeyedBy, Goals.JudgeObjectives, Goals.JudgeFailures, Goals.JudgeVictories, Goals.PhaseOf, Goals.Settled;
    var g1 := Goals.JudgeObjectives(r, |r.objectives|, g, s, now);
    var g2 := Goals.JudgeFailures(r, |r.failures|, g1, s, now);
    ObjectiveKeys(r, |r.objectives|, g, s, now);
    FailureKeys(r, |r.failures|, g1, s, now);
    VictoryKeys(r, |r.victories|, g2, now);
  }

  lemma {:induction false} ShownKeys(o: Boards.Observability, k: nat, b: Boards.BoardState, v: Boards.View, now: u64)
    requires k <= |o.dashboards| && BoardsKeyed(o, b)
    ensures BoardsKeyed(o, Boards.ShowFirst(o, k, b, v, now))
  {
    hide KeyedBy, Boards.StatusOf;
    if k > 0 {
      ShownKeys(o, k - 1, b, v, now);
      KeyStays(Boards.ShowFirst(o, k - 1, b, v, now).dashboards, o.dashboards, Boards.DashboardKey, k - 1, Boards.StatusOf(o.dashboards[k - 1], v.stamps, now));
    }
  }

  lemma {:induction false} MeasuredKeys(o: Boards.Observability, places: seq<Place>, k: nat, b: Boards.BoardState, v: Boards.View, now: u64)
    requires k <= |o.metrics| && BoardsKeyed(o, b)
    ensures BoardsKeyed(o, Boards.MeasureFirst(o, places, k, b, v, now))
  {
    hide KeyedBy, Boards.Measure;
    if k > 0 {
      MeasuredKeys(o, places, k - 1, b, v, now);
      KeyStays(Boards.MeasureFirst(o, places, k - 1, b, v, now).metrics, o.metrics, Boards.MetricKey, k - 1, Boards.Measure(o, places, o.metrics[k - 1], v, now));
    }
  }

  lemma {:induction false} AlertKeys(o: Boards.Observability, k: nat, b: Boards.BoardState, now: u64)
    requires k <= |o.alerts| && BoardsKeyed(o, b)
    ensures BoardsKeyed(o, Boards.AlertFirst(o, k, b, now))
  {
    hide KeyedBy;
    if k > 0 {
      AlertKeys(o, k - 1, b, now);
      var before, after := Boards.AlertFirst(o, k - 1, b, now), Boards.AlertFirst(o, k, b, now);
      KeyStays(before.alerts, o.alerts, Boards.AlertKey, k - 1, Boards.AlertOf(after, o.alerts[k - 1].id));
    }
  }

  lemma BoardKeys(o: Boards.Observability, places: seq<Place>, b: Boards.BoardState, v: Boards.View, now: u64)
    requires BoardsKeyed(o, b)
    ensures BoardsKeyed(o, Boards.BoardTick(o, places, b, v, now))
  {
    hide BoardsKeyed, Boards.ShowFirst, Boards.MeasureFirst, Boards.AlertFirst;
    var b1 := Boards.ShowFirst(o, |o.dashboards|, b, v, now);
    ShownKeys(o, |o.dashboards|, b, v, now);
    MeasuredKeys(o, places, |o.metrics|, b1, v, now);
    AlertKeys(o, |o.alerts|, Boards.MeasureFirst(o, places, |o.metrics|, b1, v, now), now);
  }

  lemma {:induction false} AgentKeys(agents: seq<Agents.Agent>, k: nat, demands: seq<Id>, s: Agents.AgentsState, ask: Agents.Backend, now: u64)
    requires k <= |agents|
    ensures Agents.DecideFirst(agents, k, demands, s, ask, now).agents.Keys == s.agents.Keys
  {
    if k > 0 {
      AgentKeys(agents, k - 1, demands, s, ask, now);
      hide Agents.ShouldFire, Agents.Verdict, Agents.Pause;
    }
  }

  lemma {:induction false} MilestoneKeys(ms: seq<Milestones.Milestone>, k: nat, s: Milestones.MilestonesState, v: Milestones.Seen, now: u64)
    requires k <= |ms| && KeyedBy(s.states, ms, Milestones.MilestoneKey)
    ensures KeyedBy(Milestones.JudgeFirst(ms, k, s, v, now).states, ms, Milestones.MilestoneKey)
  {
    hide KeyedBy, Milestones.Next;
    if k > 0 {
      MilestoneKeys(ms, k - 1, s, v, now);
      var before, after := Milestones.JudgeFirst(ms, k - 1, s, v, now), Milestones.JudgeFirst(ms, k, s, v, now);
      KeyStays(before.states, ms, Milestones.MilestoneKey, k - 1, Milestones.StateOf(after, ms[k - 1].id));
    }
  }

  lemma TransformKeys(s: Scene, w: World, now: u64)
    requires KeyedBy(w.plant.states, s.transforms, TransformKey)
    ensures KeyedBy(PlantStep(s, w, now).plant.states, s.transforms, TransformKey)
  {
    var weather := WeatherOn(s, w, now);
    var p1 := w.plant.(inv := Plants.InjectAll(w.plant.inv, LayoutOf(s).caps.storage, weather.requests));
    var p2 := p1.(stamps := Plants.Age(p1.stamps, LayoutOf(s).budgets, now));
    hide WeatherOn, Plants.InjectAll, Plants.Age, Plants.ProcessFirst;
    forall i | 0 <= i < |s.transforms| ensures s.transforms[i].id in p2.states {
      assert TransformKey(s.transforms[i]) == s.transforms[i].id;
    }
    StatesStay(s.transforms, |s.transforms|, LayoutOf(s).caps, weather.quota, p2, now);
  }

  lemma SameKeys<T, V>(m: map<string, V>, m': map<string, V>, items: seq<T>, key: T -> string)
    requires KeyedBy(m, items, key) && m'.Keys == m.Keys
    ensures KeyedBy(m', items, key)
  {
    assert forall id :: id in m' <==> id in m'.Keys;
  }

  /** A tick leaves every map with exactly the declared ids. */
  lemma NextKeyed(s: Scene, w: World, ask: Agents.Backend, now: u64)
    requires Keyed(s, w)
    ensures Keyed(s, Next(s, w, ask, now))
  {
    hide KeyedBy, GoalsKeyed, BoardsKeyed, Goals.GoalTick, Boards.BoardTick, Agents.DecideFirst, DemandEngine.DemandFirst, Agents.PruneFirst;
    hide Plants.PlantTick, Pressures.PressureTick, WeatherOn, MarketOf, SnapshotOf, ViewOf, SeenOf, LayoutOf, RulesOf, BoardsOf, Milestones.JudgeFirst;
    TransformKeys(s, w, now);
    var w1 := PlantStep(s, w, now);
    DemandKeys(s.demand, |s.demand|, w1.demand, MarketOf(w1), now);
    var w2 := DemandStep(s, w1, now);
    SameKeys(w1.demand, w2.demand, s.demand, DemandKey);
    GoalKeys(RulesOf(s), w2.goals, SnapshotOf(w2.plant, w2.demand), now);
    BoardKeys(BoardsOf(s), s.places, w2.boards, ViewOf(w2.plant), now);
    var w3 := JudgeStep(s, w2, now);
    AgentKeys(s.agents, |s.agents|, DemandEngine.DemandIds(s.demand), w3.agents, ask, now);
    MilestoneKeys(s.milestones, |s.milestones|, w3.milestones, SeenOf(w3.pressure, w3.boards), now);
    var w4 := ActStep(s, w3, ask, now);
    SameKeys(w3.agents.agents, w4.agents.agents, s.agents, Agents.AgentKey);
  }

  lemma NextSteps(s: Scene, w: World, ask: Agents.Backend, now: u64)
    ensures Next(s, w, ask, now) == ActStep(s, JudgeStep(s, DemandStep(s, PlantStep(s, w, now), now), now), ask, now)
    ensures SceneOk(s) ==> TransformsOk(s.transforms) && Boards.BoardsOk(BoardsOf(s), s.places)
  {
    hide ActStep, JudgeStep, DemandStep, PlantStep;
  }

  /** Fit to be ticked: keyed by exactly the declared ids, and with a message channel that tells the history of the transforms. */
  ghost predicate Sound(s: Scene, rt: Sl1RuntimeState)
    reads rt
  {
    Ready(s, rt) && rt.Keyed(s)
  }

  lemma SoundIs(s: Scene, rt: Sl1RuntimeState)
    ensures Sound(s, rt) <==> Ready(s, rt) && Keyed(s, WorldOf(rt))
  {
    hide Ready, KeyedExactly;
  }

  /** One tick takes the whole state where Next says, and leaves it fit for the next tick. */
  method RunTick(s: Scene, rt: Sl1RuntimeState, ask: Agents.Backend, now: u64)
    requires SceneOk(s) && Sound(s, rt)
    modifies rt
    ensures WorldOf(rt) == Next(s, old(WorldOf(rt)), ask, now) && Sound(s, rt)
  {
    hide *;
    SoundIs(s, rt);
    NextSteps(s, WorldOf(rt), ask, now);
    NextKeyed(s, WorldOf(rt), ask, now);
    PlantPhase(s, rt, now);
    DemandPhase(s, rt, now);
    JudgePhase(s, rt, now);
    ActPhase(s, rt, ask, now);
    SoundIs(s, rt);
  }

  // ---- Runs ----

  /** The state of a scene after tick n. */
  ghost function WorldAt(s: Scene, ask: Agents.Backend, n: nat): World
    requires n <= U64_MAX
  {
    if n == 0 then StartOf(s) else Next(s, WorldAt(s, ask, n - 1), ask, n)
  }

  lemma StartComplete(s: Scene)
    requires SceneOk(s)
    ensures Complete(s, StartOf(s))
  {
    var o := BoardsOf(s);
    forall id ensures id in AllIdle(s.transforms) <==> exists t :: t in s.transforms && t.id == id {
    }
    forall i | 0 <= i < |s.demand| ensures s.demand[i].id in NoDemands(s.demand) { assert s.demand[i] in s.demand; }
    StartHasGoals(RulesOf(s));
    StartHasBoards(o, s.places);
    forall i | 0 <= i < |s.milestones| ensures s.milestones[i].id in Milestones.FreshMilestones(s.milestones).states {
      assert s.milestones[i] in s.milestones;
    }
  }

  lemma StartHasGoals(r: Goals.Rules)
    ensures GoalEngine.Present(r, Goals.FreshGoals(r))
  {
    var g := Goals.FreshGoals(r);
    forall i | 0 <= i < |r.objectives| ensures r.objectives[i].id in g.objectives { assert r.objectives[i] in r.objectives; }
    forall i | 0 <= i < |r.failures| ensures r.failures[i].id in g.failures { assert r.failures[i] in r.failures; }
    forall i | 0 <= i < |r.victories| ensures r.victories[i].id in g.victories { assert r.victories[i] in r.victories; }
  }

  lemma StartHasBoards(o: Boards.Observability, places: seq<Place>)
    requires Boards.BoardsOk(o, places)
    ensures BoardEngine.Present(o, Boards.FreshBoards(o))
  {
    var b := Boards.FreshBoards(o);
    forall i | 0 <= i < |o.dashboards| ensures o.dashboards[i].id in b.dashboards { assert o.dashboards[i] in o.dashboards; }
    forall i | 0 <= i < |o.metrics| ensures o.metrics[i].id in b.metrics { assert o.metrics[i] in o.metrics; }
    forall i | 0 <= i < |o.alerts| ensures o.alerts[i].id in b.alerts && o.alerts[i].metric in b.metrics {
      assert o.alerts[i] in o.alerts;
      var m := Boards.FindMetric(o.metrics, o.alerts[i].metric).value;
      assert m in o.metrics;
    }
  }

  lemma StartParts(s: Scene, rt: Sl1RuntimeState)
    requires rt.PlantView() == Plants.Opening(LayoutOf(s)) && rt.demand == NoDemands(s.demand) && rt.demandMessages == []
    requires rt.pressure == Pressures.Calm && rt.GoalView() == Goals.FreshGoals(RulesOf(s)) && rt.transformMessages == []
    requires rt.BoardView() == Boards.FreshBoards(BoardsOf(s)) && rt.AgentView() == Agents.FreshAgents(s.agents)
    requires rt.MilestoneView() == Milestones.FreshMilestones(s.milestones)
    ensures WorldOf(rt) == StartOf(s) && rt.transformMessages == MessagesOf(rt.history)
  {
    assert rt.history == [];
  }

  lemma RunUnfold(s: Scene, ask: Agents.Backend, n: nat)
    requires n <= U64_MAX
    ensures WorldAt(s, ask, n) == if n == 0 then StartOf(s) else Next(s, WorldAt(s, ask, n - 1), ask, n)
  {
  }

  lemma ReadyIs(s: Scene, rt: Sl1RuntimeState)
    ensures Ready(s, rt) <==> Complete(s, WorldOf(rt)) && rt.transformMessages == MessagesOf(rt.history)
  {
  }

  lemma StartKeyed(s: Scene)
    ensures Keyed(s, StartOf(s))
  {
    FreshlyKeyed(s);
    OpeningOf(LayoutOf(s));
    hide KeyedExactly, AllIdle, NoDemands, TagsOf, Unused;
  }

  /** After every tick of every run, each map of the state has exactly the declared ids. */
  lemma {:induction false} RunKeyed(s: Scene, ask: Agents.Backend, n: nat)
    requires n <= U64_MAX
    ensures Keyed(s, WorldAt(s, ask, n))
  {
    hide *;
    RunUnfold(s, ask, n);
    if n == 0 {
      StartKeyed(s);
    } else {
      RunKeyed(s, ask, n - 1);
      NextKeyed(s, WorldAt(s, ask, n - 1), ask, n);
    }
  }

  /** Loads a scene and lets it run: no lookup fails on the way, and the state is the one the run has after its ticks. */
  method Simulate(s: Scene, ask: Agents.Backend, ticks: u64) returns (rt: Sl1RuntimeState)
    requires SceneOk(s)
    ensures fresh(rt) && WorldOf(rt) == WorldAt(s, ask, ticks) && Sound(s, rt)
  {
    hide *;
    rt := new Sl1RuntimeState.FromScene(s);
    StartParts(s, rt);
    StartComplete(s);
    ReadyIs(s, rt);
    SoundIs(s, rt);
    StartKeyed(s);
    RunUnfold(s, ask, 0);
    var now: u64 := 0;
    while now < ticks
      invariant now <= ticks && fresh(rt)
      invariant WorldOf(rt) == WorldAt(s, ask, now) && Sound(s, rt)
    {
      Ticks(now, ticks);
      now := SatAdd(now, 1);
      RunUnfold(s, ask, now);
      RunTick(s, rt, ask, now);
    }
  }

  lemma Ticks(now: u64, ticks: u64)
    requires now < ticks
    ensures SatAdd(now, 1) == now + 1
  {
  }
}
