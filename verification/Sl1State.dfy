/** The mutable state of one scene, and what its immutable description lays out. */
module Sl1State {
  import opened Base
  import opened Order
  import opened Sl1Scene
  import Pressures
  import opened Plants
  import opened Demands
  import Goals
  import Boards
  import Agents
  import Milestones

  datatype Scene = Scene(
    things: seq<Thing>, places: seq<Place>, links: seq<Link>, transforms: seq<Transform>, demand: seq<Demand>, pressure: seq<Pressure>,
    objectives: seq<Goals.Objective>, failures: seq<Goals.Failure>, victories: seq<Goals.Victory>,
    observability: Option<Boards.Observability>, agents: seq<Agents.Agent>, milestones: seq<Milestones.Milestone>)

  // ---- What the scene lays out ----

  function CapacitiesOf(p: Place): map<Slot, u64> { map name | name in p.storage :: (p.id, name) := p.storage[name].capacity }
  function InitialsOf(p: Place): map<Slot, u64> { map name | name in p.storage :: (p.id, name) := p.storage[name].initial }
  function BucketsOf(p: Place): map<Bucket, u64> { map name | name in p.capacity :: (p.id, name) := p.capacity[name] }

  function StorageFirst(places: seq<Place>, k: nat): map<Slot, u64>
    requires k <= |places|
  {
    if k == 0 then map[] else StorageFirst(places, k - 1) + CapacitiesOf(places[k - 1])
  }

  function InitialFirst(places: seq<Place>, k: nat): map<Slot, u64>
    requires k <= |places|
  {
    if k == 0 then map[] else InitialFirst(places, k - 1) + InitialsOf(places[k - 1])
  }

  function BaseFirst(places: seq<Place>, k: nat): map<Bucket, u64>
    requires k <= |places|
  {
    if k == 0 then map[] else BaseFirst(places, k - 1) + BucketsOf(places[k - 1])
  }

  function BudgetFirst(things: seq<Thing>, k: nat): map<Id, Option<u64>>
    requires k <= |things|
  {
    if k == 0 then map[] else BudgetFirst(things, k - 1)[things[k - 1].id := things[k - 1].budget]
  }

  function CapsOf(places: seq<Place>): Caps {
    Caps(StorageFirst(places, |places|), BaseFirst(places, |places|))
  }

  function LayoutOf(s: Scene): Layout {
    Layout(s.transforms, CapsOf(s.places), BudgetFirst(s.things, |s.things|), InitialFirst(s.places, |s.places|))
  }

  function RulesOf(s: Scene): Goals.Rules { Goals.Rules(s.places, s.objectives, s.failures, s.victories) }

  const NO_BOARDS := Boards.Observability([], [], [])
  function BoardsOf(s: Scene): Boards.Observability { if s.observability.Some? then s.observability.value else NO_BOARDS }

  /** What the loader hands to the runtime: canonical sections whose references resolve. */
  ghost predicate SceneOk(s: Scene) {
    && TransformsOk(s.transforms)
    && Pressures.PressuresOk(s.pressure)
    && SortedBy(s.demand, DemandKey) && (forall d :: d in s.demand ==> ScheduleOk(d.schedule) && d.needs != [])
    && Goals.RulesOk(RulesOf(s))
    && Boards.BoardsOk(BoardsOf(s), s.places)
    && Agents.AgentsOk(s.agents)
    && SortedBy(s.milestones, Milestones.MilestoneKey)
    && SortedBy(s.places, PlaceKey) && SortedBy(s.things, ThingKey)
  }

  /** A transform's warning, as it is put on the message channel. */
  datatype TransformMessage = TransformMessage(id: Id, warning: Warning, tick: u64)
  datatype DemandMessage = DemandMessage(id: Id, warning: DemandWarning, tick: u64)

  function Tagged(id: Id, ws: seq<Warning>, tick: u64): seq<TransformMessage> {
    seq(|ws|, i requires 0 <= i < |ws| => TransformMessage(id, ws[i], tick))
  }

  function MessagesOf(h: seq<Logged>): seq<TransformMessage> {
    if h == [] then [] else MessagesOf(h[..|h| - 1]) + Tagged(h[|h| - 1].def.id, h[|h| - 1].move.warnings, h[|h| - 1].tick)
  }

  function DemandTagged(id: Id, ws: seq<DemandWarning>, tick: u64): seq<DemandMessage> {
    seq(|ws|, i requires 0 <= i < |ws| => DemandMessage(id, ws[i], tick))
  }

  function TagsOf(initial: map<Slot, u64>): map<Slot, Freshness> {
    map s | s in initial :: (if initial[s] > 0 then Ok(0) else NoData)
  }

  function Unused(base: map<Bucket, u64>): map<Bucket, u64> { map b | b in base :: 0 }

  /** The stock, the freshness tags and the empty capacity of every place, built place by place. */
  method InitialStock(places: seq<Place>) returns (initial: map<Slot, u64>, stamps: map<Slot, Freshness>, used: map<Bucket, u64>)
    ensures initial == InitialFirst(places, |places|)
    ensures stamps == TagsOf(initial) && used == Unused(BaseFirst(places, |places|))
  {
    initial, stamps, used := map[], map[], map[];
    NoPlaces(places);
    hide TagsOf, Unused, InitialsOf, BucketsOf;
    var i := 0;
    while i < |places|
      invariant i <= |places|
      invariant initial == InitialFirst(places, i)
      invariant stamps == TagsOf(initial) && used == Unused(BaseFirst(places, i))
    {
      var p := places[i];
      MergeTags(initial, InitialsOf(p));
      MergeUnused(BaseFirst(places, i), BucketsOf(p));
      initial := initial + InitialsOf(p);
      stamps := stamps + TagsOf(InitialsOf(p));
      used := used + Unused(BucketsOf(p));
      i := i + 1;
    }
  }

  lemma NoPlaces(places: seq<Place>)
    ensures InitialFirst(places, 0) == map[] && TagsOf(map[]) == map[] && Unused(BaseFirst(places, 0)) == map[]
  {
  }

  lemma MergeTags(a: map<Slot, u64>, b: map<Slot, u64>)
    ensures TagsOf(a + b) == TagsOf(a) + TagsOf(b)
  {
  }

  lemma MergeUnused(a: map<Bucket, u64>, b: map<Bucket, u64>)
    ensures Unused(a + b) == Unused(a) + Unused(b)
  {
  }

  function AllIdle(ts: seq<Transform>): map<Id, TState> { map t | t in ts :: t.id := Idle }
  function NoDemands(ds: seq<Demand>): map<Id, DemandState> { map d | d in ds :: d.id := NoDemand }

  lemma OpeningOf(lay: Layout)
    ensures Opening(lay) == Plants.Plant(lay.initial, TagsOf(lay.initial), Unused(lay.caps.base), map[], AllIdle(lay.ts), [])
  {
  }

  ghost predicate GoalsKeyed(r: Goals.Rules, g: Goals.GoalState) {
    && KeyedBy(g.objectives, r.objectives, Goals.ObjectiveKey)
    && KeyedBy(g.failures, r.failures, Goals.FailureKey)
    && KeyedBy(g.victories, r.victories, Goals.VictoryKey)
  }

  ghost predicate BoardsKeyed(o: Boards.Observability, b: Boards.BoardState) {
    && KeyedBy(b.metrics, o.metrics, Boards.MetricKey)
    && KeyedBy(b.dashboards, o.dashboards, Boards.DashboardKey)
    && KeyedBy(b.alerts, o.alerts, Boards.AlertKey)
  }

  /** Each map of a state has exactly the ids its section declares. */
  ghost predicate KeyedExactly(
    s: Scene, states: map<Id, TState>, demand: map<Id, DemandState>, g: Goals.GoalState, b: Boards.BoardState,
    agents: map<Id, Agents.AgentState>, milestones: map<Id, Milestones.MilestoneState>)
  {
    && KeyedBy(states, s.transforms, TransformKey) && KeyedBy(demand, s.demand, DemandKey)
    && GoalsKeyed(RulesOf(s), g) && BoardsKeyed(BoardsOf(s), b)
    && KeyedBy(agents, s.agents, Agents.AgentKey) && KeyedBy(milestones, s.milestones, Milestones.MilestoneKey)
  }

  lemma FreshGoalsKeyed(r: Goals.Rules)
    ensures GoalsKeyed(r, Goals.FreshGoals(r))
  {
    var g := Goals.FreshGoals(r);
    hide KeyedBy;
    AllKeyed(r.objectives, Goals.ObjectiveKey, g.objectives);
    AllKeyed(r.failures, Goals.FailureKey, g.failures);
    AllKeyed(r.victories, Goals.VictoryKey, g.victories);
  }

  lemma FreshBoardsKeyed(o: Boards.Observability)
    ensures BoardsKeyed(o, Boards.FreshBoards(o))
  {
    var b := Boards.FreshBoards(o);
    hide KeyedBy;
    AllKeyed(o.metrics, Boards.MetricKey, b.metrics);
    AllKeyed(o.dashboards, Boards.DashboardKey, b.dashboards);
    AllKeyed(o.alerts, Boards.AlertKey, b.alerts);
  }

  lemma FreshlyKeyed(s: Scene)
    ensures KeyedExactly(s, AllIdle(s.transforms), NoDemands(s.demand), Goals.FreshGoals(RulesOf(s)), Boards.FreshBoards(BoardsOf(s)),
                         Agents.FreshAgents(s.agents).agents, Milestones.FreshMilestones(s.milestones).states)
  {
    hide KeyedBy, GoalsKeyed, BoardsKeyed, BoardsOf, RulesOf;
    FreshGoalsKeyed(RulesOf(s));
    FreshBoardsKeyed(BoardsOf(s));
    AllKeyed(s.transforms, TransformKey, AllIdle(s.transforms));
    AllKeyed(s.demand, DemandKey, NoDemands(s.demand));
    AllKeyed(s.agents, Agents.AgentKey, Agents.FreshAgents(s.agents).agents);
    AllKeyed(s.milestones, Milestones.MilestoneKey, Milestones.FreshMilestones(s.milestones).states);
  }

  lemma AllKeyed<T(!new), V>(items: seq<T>, key: T -> string, m: map<string, V>)
    requires m.Keys == set x | x in items :: key(x)
    ensures KeyedBy(m, items, key)
  {
    forall id ensures id in m <==> exists i :: 0 <= i < |items| && key(items[i]) == id {
      if id in m.Keys {
        var x :| x in items && key(x) == id;
        var i :| 0 <= i < |items| && items[i] == x;
      }
      if i :| 0 <= i < |items| && key(items[i]) == id {
        assert items[i] in items;
      }
    }
  }

  class Sl1RuntimeState {
    var inventories: map<Slot, u64>
    var freshness: map<Slot, Freshness>
    var transforms: map<Id, TState>
    var placeCapacityUsed: map<Bucket, u64>
    var pendingOutputs: map<Slot, u64>
    var demand: map<Id, DemandState>
    var pressure: Pressures.PressureState
    var objectives: map<Id, Goals.ObjectiveState>
    var failureConditions: map<Id, Goals.FailureState>
    var victoryConditions: map<Id, Option<u64>>
    var gameOutcome: Goals.Outcome
    var gamePhase: Goals.Phase
    var unsupportedObjectivesWarned: set<Id>
    var metricStates: map<Id, Boards.MetricState>
    var dashboardStates: map<Id, Boards.BoardStatus>
    var alertStates: map<Id, Boards.AlertState>
    var agents: map<Id, Agents.AgentState>
    var agentDemandPauses: map<Id, u64>
    var milestones: map<Id, Milestones.MilestoneState>

    // The event and message channels, emitter by emitter.
    var transformMessages: seq<TransformMessage>
    var demandMessages: seq<DemandMessage>
    var goalEvents: seq<Goals.GoalEvent>
    var boardEvents: seq<Boards.BoardEvent>
    var agentEvents: seq<Agents.AgentEvent>
    var milestoneEvents: seq<Milestones.Fired>

    /** Every transition a transform has made. */
    ghost var history: seq<Logged>

    ghost function PlantView(): Plant
      reads this`inventories, this`freshness, this`transforms, this`placeCapacityUsed, this`pendingOutputs, this`history
    {
      Plants.Plant(inventories, freshness, placeCapacityUsed, pendingOutputs, transforms, history)
    }

    function GoalView(): Goals.GoalState
      reads this`objectives, this`failureConditions, this`victoryConditions, this`gameOutcome, this`gamePhase, this`unsupportedObjectivesWarned, this`goalEvents
    {
      Goals.GoalState(objectives, failureConditions, victoryConditions, gameOutcome, gamePhase, unsupportedObjectivesWarned, goalEvents)
    }

    function BoardView(): Boards.BoardState
      reads this`metricStates, this`dashboardStates, this`alertStates, this`boardEvents
    {
      Boards.BoardState(metricStates, dashboardStates, alertStates, boardEvents)
    }

    function AgentView(): Agents.AgentsState
      reads this`agents, this`agentDemandPauses, this`agentEvents
    {
      Agents.AgentsState(agents, agentDemandPauses, agentEvents)
    }

    function MilestoneView(): Milestones.MilestonesState
      reads this`milestones, this`milestoneEvents
    {
      Milestones.MilestonesState(milestones, milestoneEvents)
    }

    /** What a tick of goals sees of the rest. */
    function GoalInputs(): Goals.Snapshot
      reads this`freshness, this`placeCapacityUsed, this`demand
    {
      Goals.Snapshot(freshness, placeCapacityUsed, map id | id in demand :: demand[id].dropped)
    }

    function BoardInputs(): Boards.View
      reads this`freshness, this`placeCapacityUsed, this`inventories
    {
      Boards.View(freshness, placeCapacityUsed, inventories)
    }

    function MilestoneInputs(): Milestones.Seen
      reads this`pressure, this`metricStates, this`dashboardStates
    {
      Milestones.Seen(pressure.active.Keys, metricStates, dashboardStates)
    }

    /** Every map is keyed by exactly the declared ids, so no lookup the engine insists on can fail. */
    ghost predicate Keyed(s: Scene)
      reads this
    {
      KeyedExactly(s, transforms, demand, GoalView(), BoardView(), agents, milestones)
    }

    /** The state of a scene before its first tick. */
    constructor FromScene(s: Scene)
      requires SceneOk(s)
      ensures PlantView() == Opening(LayoutOf(s))
      ensures demand == NoDemands(s.demand)
      ensures pressure == Pressures.Calm
      ensures GoalView() == Goals.FreshGoals(RulesOf(s))
      ensures BoardView() == Boards.FreshBoards(BoardsOf(s))
      ensures AgentView() == Agents.FreshAgents(s.agents)
      ensures MilestoneView() == Milestones.FreshMilestones(s.milestones)
      ensures transformMessages == [] && demandMessages == []
      ensures Keyed(s)
    {
      OpeningOf(LayoutOf(s));
      FreshlyKeyed(s);
      hide KeyedExactly;
      hide Opening, TagsOf, Unused, AllIdle, NoDemands, InitialFirst, BaseFirst, StorageFirst, BudgetFirst, SceneOk;
      hide Goals.FreshGoals, Boards.FreshBoards, Agents.FreshAgents, Milestones.FreshMilestones;
      var initial, stamps, used := InitialStock(s.places);
      var goals, boards := Goals.FreshGoals(RulesOf(s)), Boards.FreshBoards(BoardsOf(s));
      inventories := initial;
      freshness := stamps;
      placeCapacityUsed := used;
      pendingOutputs := map[];
      transforms := AllIdle(s.transforms);
      demand := NoDemands(s.demand);
      pressure := Pressures.Calm;
      objectives, failureConditions, victoryConditions := goals.objectives, goals.failures, goals.victories;
      gameOutcome, gamePhase, unsupportedObjectivesWarned := goals.outcome, goals.phase, goals.warned;
      metricStates, dashboardStates, alertStates := boards.metrics, boards.dashboards, boards.alerts;
      var crew, marks := Agents.FreshAgents(s.agents), Milestones.FreshMilestones(s.milestones);
      agents, agentDemandPauses, milestones := crew.agents, crew.pauses, marks.states;
      transformMessages, demandMessages := [], [];
      goalEvents, boardEvents, agentEvents, milestoneEvents := goals.events, boards.events, crew.events, marks.events;
      history := [];
    }
  }
}
