/** What holds of a loaded scene after every tick, whatever its agents' backends answer. */
module SceneTheorems {
  import opened Base
  import opened Order
  import opened Sl1Scene
  import opened Pressures
  import Plants
  import PlantRuns
  import PlantKeys
  import Ledger
  import Deliveries
  import TransformRuns
  import Turns
  import TransformLife
  import opened Demands
  import Goals
  import GoalRuns
  import Boards
  import BoardRuns
  import Agents
  import AgentRuns
  import Milestones
  import DemandEngine
  import Backlogs
  import opened Sl1State
  import opened TickEngine
  import opened Sl1Runs

  /** The slots some pressure pours into. */
  function SourceSlots(ps: seq<Pressure>): set<Slot> {
    set p | p in ps && p.params.SourceMultiplier? :: (p.target, p.params.thing)
  }

  lemma {:induction false} WantedSlots(ps: seq<Pressure>, all: seq<Pressure>, n: u64)
    requires forall p :: p in ps ==> p in all
    ensures forall i :: 0 <= i < |Wanted(ps, n)| ==> Wanted(ps, n)[i].slot in SourceSlots(all)
  {
    if ps != [] {
      WantedSlots(ps[..|ps| - 1], all, n);
      assert ps[|ps| - 1] in ps;
    }
  }

  lemma WeatherFits(s: Scene, n: nat)
    requires PressuresOk(s.pressure) && 0 < n <= U64_MAX
    ensures PlantRuns.WeatherOk(WeatherAt(s, n), SourceSlots(s.pressure))
  {
    PressureClosedForm(s.pressure, n);
    hide PressureTick, PressureAt, Wanted, PressuresOk, ActiveExactly, CarryExactly, OverlaysExactly;
    WantedSlots(s.pressure, s.pressure, n);
  }

  lemma WeathersFit(s: Scene, m: nat)
    requires PressuresOk(s.pressure) && m <= U64_MAX
    ensures PlantRuns.WeathersOk(Weathers(s, m), SourceSlots(s.pressure))
  {
    hide PressuresOk, WeatherAt, SourceSlots, PlantRuns.WeatherOk;
    forall i | 0 <= i < m ensures PlantRuns.WeatherOk(Weathers(s, m)[i], SourceSlots(s.pressure)) {
      WeatherFits(s, i + 1);
    }
  }

  lemma SceneParts(s: Scene)
    requires SceneOk(s)
    ensures TransformsOk(s.transforms) && LayoutOf(s).ts == s.transforms && PressuresOk(s.pressure) && Goals.RulesOk(RulesOf(s))
    ensures Boards.BoardsOk(BoardsOf(s), s.places) && Agents.AgentsOk(s.agents) && SortedBy(s.milestones, Milestones.MilestoneKey)
    ensures SortedBy(s.demand, DemandKey) && forall i :: 0 <= i < |s.demand| ==> ScheduleOk(s.demand[i].schedule)
  {
    hide TransformsOk, PressuresOk, Goals.RulesOk, Boards.BoardsOk, Agents.AgentsOk, SortedBy, ScheduleOk;
    forall i | 0 <= i < |s.demand| ensures ScheduleOk(s.demand[i].schedule) {
      assert s.demand[i] in s.demand;
    }
  }

  /**
   * After every tick: reservations are exactly what the running transforms hold, capacities and storage are
   * within their limits, the inventory ledger balances, and every freshness tag is what its last delivery makes it.
   */
  lemma SceneKeepsLimits(s: Scene, ask: Agents.Backend, n: nat)
    requires SceneOk(s) && PlantRuns.LayoutOk(LayoutOf(s), SourceSlots(s.pressure)) && n <= U64_MAX
    ensures PlantRuns.PlantOk(LayoutOf(s), SourceSlots(s.pressure), PlantRuns.ArrivedBy(LayoutOf(s), Weathers(s, n), n), WorldAt(s, ask, n).plant, n)
  {
    hide *;
    SceneParts(s);
    WeathersFit(s, n);
    PlantsRun(s, ask, n, n);
    PlantRuns.PlantInvariant(LayoutOf(s), SourceSlots(s.pressure), Weathers(s, n), n);
  }

  /** After every tick each map of the state has exactly the declared ids, slots or buckets. */
  lemma SceneKeyed(s: Scene, ask: Agents.Backend, n: nat)
    requires SceneOk(s) && PlantRuns.Laid(LayoutOf(s), SourceSlots(s.pressure)) && n <= U64_MAX
    ensures Keyed(s, WorldAt(s, ask, n)) && PlantKeys.PlantKeyed(LayoutOf(s), WorldAt(s, ask, n).plant)
  {
    hide *;
    SceneParts(s);
    WeathersFit(s, n);
    PlantsRun(s, ask, n, n);
    RunKeyed(s, ask, n);
    PlantKeys.KeysKept(LayoutOf(s), SourceSlots(s.pressure), Weathers(s, n), n);
  }

  /** In every slot, stock = initial + injected + deliveries times output amounts - starts times input amounts. */
  lemma SceneLedger(s: Scene, ask: Agents.Backend, n: nat, slot: Slot)
    requires SceneOk(s) && PlantRuns.LayoutOk(LayoutOf(s), SourceSlots(s.pressure)) && n <= U64_MAX
    ensures var p := WorldAt(s, ask, n).plant;
      Get(p.inv, slot) == Get(LayoutOf(s).initial, slot) + PlantRuns.Arrived(LayoutOf(s), Weathers(s, n), n, slot)
        + Ledger.Total(LayoutOf(s).ts, p.history, Ledger.Outputs, slot) - Ledger.Total(LayoutOf(s).ts, p.history, Ledger.Inputs, slot)
  {
    hide *;
    SceneParts(s);
    WeathersFit(s, n);
    PlantsRun(s, ask, n, n);
    Ledger.LedgerBalances(LayoutOf(s), SourceSlots(s.pressure), Weathers(s, n), n, slot);
  }

  /** Every slot of a cadence that has come up was delivered, failed, missed, or is the one instance still open. */
  lemma SceneSlots(s: Scene, ask: Agents.Backend, n: nat, i: nat)
    requires SceneOk(s) && n < U64_MAX && i < |s.transforms|
    ensures s.transforms[i].cadence > 0
    ensures TransformRuns.LifeOk(s.transforms[i], WorldAt(s, ask, n).plant, n)
  {
    hide *;
    SceneParts(s);
    PlantsRun(s, ask, n, n);
    TransformRuns.SlotsConserved(LayoutOf(s), Weathers(s, n), n, i);
  }

  /** An instance open after tick t has ended by its horizon. */
  lemma SceneInstances(s: Scene, ask: Agents.Backend, t: nat, i: nat)
    requires SceneOk(s) && i < |s.transforms| && t <= TransformLife.Horizon(s.transforms[i], t) < U64_MAX
    requires Turns.OpenSince(s.transforms[i], Plants.StateOf(WorldAt(s, ask, t).plant, s.transforms[i].id), t)
    ensures var n := TransformLife.Horizon(s.transforms[i], t);
      Turns.EndedWithin(WorldAt(s, ask, n).plant.history, s.transforms[i], t, n)
  {
    hide *;
    var n := TransformLife.Horizon(s.transforms[i], t);
    SceneParts(s);
    PlantsRun(s, ask, t, n);
    PlantsRun(s, ask, n, n);
    Turns.InstanceResolves(LayoutOf(s), Weathers(s, n), i, t);
  }

  /** Whatever a transform has delivered came from an instance due on that tick: in time for its schedule. */
  lemma SceneDeliveries(s: Scene, ask: Agents.Backend, n: nat, i: nat, j: nat)
    requires SceneOk(s) && n < U64_MAX && i < |s.transforms|
    requires Deliveries.Delivers(WorldAt(s, ask, n).plant.history, j, s.transforms[i])
    ensures j < |WorldAt(s, ask, n).plant.history|
    ensures var t := WorldAt(s, ask, n).plant.history[j].tick;
      1 <= t <= n && Deliveries.DueDelivery(s.transforms[i], Plants.StateOf(WorldAt(s, ask, t - 1).plant, s.transforms[i].id), t)
  {
    hide Plants.StateOf, WorldAt, PlantRuns.PlantAt, SceneOk, Weathers, LayoutOf, Deliveries.DueDelivery;
    SceneParts(s);
    PlantsRun(s, ask, n, n);
    Deliveries.NothingLandsLate(LayoutOf(s), Weathers(s, n), n, i);
    assert Deliveries.Timely(LayoutOf(s), Weathers(s, n), n, WorldAt(s, ask, n).plant.history[j]);
    PlantsRun(s, ask, WorldAt(s, ask, n).plant.history[j].tick - 1, n);
  }

  /** The outcome after tick n is the one its history of failure predicates tells. */
  lemma SceneOutcome(s: Scene, ask: Agents.Backend, n: nat)
    requires SceneOk(s) && n <= U64_MAX
    ensures WorldAt(s, ask, n).goals.outcome == GoalRuns.OutcomeOf(RulesOf(s), Snapshots(s, ask, n), n)
    ensures GoalRuns.Announcements(WorldAt(s, ask, n).goals.events) == if WorldAt(s, ask, n).goals.outcome.InProgress? then 0 else 1
  {
    hide *;
    SceneParts(s);
    GoalsRun(s, ask, n, n);
    GoalRuns.OutcomeIsHistory(RulesOf(s), Snapshots(s, ask, n), n);
    GoalRuns.AnnouncedOnce(RulesOf(s), Snapshots(s, ask, n), n);
  }

  /** The board and alert logs replay to what is shown after tick n. */
  lemma SceneBoards(s: Scene, ask: Agents.Backend, n: nat)
    requires SceneOk(s) && n <= U64_MAX
    ensures var b, o := WorldAt(s, ask, n).boards, BoardsOf(s);
      && (forall i :: 0 <= i < |o.alerts| ==>
            BoardRuns.ReplayAlert(BoardRuns.LogOf(b.events, o.alerts[i].id, true)) == Some(Boards.AlertOf(b, o.alerts[i].id)))
      && (forall i :: 0 <= i < |o.dashboards| ==>
            BoardRuns.ReplayBoard(BoardRuns.LogOf(b.events, o.dashboards[i].id, false)) == Some(Boards.BoardOf(b, o.dashboards[i].id).Label()))
  {
    hide *;
    SceneParts(s);
    BoardsRun(s, ask, n, n);
    BoardRuns.EventsReplayToState(BoardsOf(s), s.places, Views(s, ask, n), n);
  }

  // ---- Demand, pressure and agents together ----

  lemma SpawnsWanted(ps: seq<Pressure>, n: u64, d: Id)
    requires PressuresOk(ps) && n > 0
    ensures EffectiveSpawnCount(PressureAt(ps, n).growth, d) == 1 + GrowthSum(ps, n, d)
  {
    PressureClosedForm(ps, n);
    GrowthBounded(ps, n, d);
    hide PressureAt, PressureTick, GrowthSum, ActiveExactly, CarryExactly;
  }

  /** Every thing the demand needs is in stock at its place. */
  predicate InStock(p: Plants.Plant, d: Demand) {
    forall thing :: thing in d.needs ==> Get(p.inv, (d.place, thing)) > 0
  }

  lemma CallUnfold(s: Scene, ask: Agents.Backend, d: Demand, n: nat)
    requires 0 < n <= U64_MAX
    ensures CallAt(s, ask, d, n).paused == Agents.Paused(WorldAt(s, ask, n - 1).agents.pauses, d.id, n)
    ensures CallAt(s, ask, d, n).want == EffectiveSpawnCount(WorldAt(s, ask, n).pressure.growth, d.id)
    ensures CallAt(s, ask, d, n).stocked <==> InStock(WorldAt(s, ask, n).plant, d)
  {
    hide WorldAt, Agents.Paused, EffectiveSpawnCount;
  }

  /**
   * On tick n a demand spawns exactly when its schedule names n and no throttle applied before n, by any agent,
   * reaches n; it then spawns one instance plus one for each unit of growth of the pressures whose window
   * holds n, as far as the backlog has room.
   */
  lemma SceneSpawns(s: Scene, ask: Agents.Backend, n: nat, i: nat)
    requires SceneOk(s) && 0 < n < U64_MAX && MAX_OUTSTANDING * n <= U64_MAX && i < |s.demand|
    ensures Agents.AgentsOk(s.agents)
    ensures s.demand[i].id in WorldAt(s, ask, n - 1).demand && s.demand[i].id in WorldAt(s, ask, n).demand
    ensures var d := s.demand[i]; var before := WorldAt(s, ask, n - 1).demand[d.id];
      WorldAt(s, ask, n).demand[d.id].next == before.next +
        if Due(d.schedule, n) && !AgentRuns.HeldBack(s.agents, DemandEngine.DemandIds(s.demand), ask, n - 1, d.id, n)
        then Min(1 + GrowthSum(s.pressure, n, d.id), MAX_OUTSTANDING - |before.pending|) else 0
  {
    hide *;
    var d := s.demand[i];
    SceneParts(s);
    DemandRuns(s, ask, n - 1, n, i);
    DemandRuns(s, ask, n, n, i);
    SpawnsExactlyWhenDue(d, Calls(s, ask, d, n), n);
    CallsAt(s, ask, d, n, n);
    CallUnfold(s, ask, d, n);
    PressureRuns(s, ask, n);
    SpawnsWanted(s.pressure, n, d.id);
    AgentsRun(s, ask, n - 1);
    AgentRuns.PausedExactly(s.agents, DemandEngine.DemandIds(s.demand), ask, n - 1, d.id, n);
  }

  /** The schedule names tick n, and no throttle applied before reaches it. */
  ghost predicate DueOn(s: Scene, ask: Agents.Backend, d: Demand, n: nat)
    requires Agents.AgentsOk(s.agents) && 0 < n < U64_MAX
  {
    Due(d.schedule, n) && !AgentRuns.HeldBack(s.agents, DemandEngine.DemandIds(s.demand), ask, n - 1, d.id, n)
  }

  /**
   * What tick n does to a backlog: what is due is born as far as there is room; all past their deadline are dropped
   * and reported; and the oldest instance left is fulfilled exactly if, after this tick's transforms, every thing
   * the demand needs is in stock at its place.
   */
  lemma SceneFulfils(s: Scene, ask: Agents.Backend, n: nat, i: nat)
    requires SceneOk(s) && 0 < n < U64_MAX && MAX_OUTSTANDING * n <= U64_MAX && i < |s.demand|
    ensures Agents.AgentsOk(s.agents)
    ensures s.demand[i].id in WorldAt(s, ask, n - 1).demand && s.demand[i].id in WorldAt(s, ask, n).demand
    ensures var d := s.demand[i]; var before, after := WorldAt(s, ask, n - 1).demand[d.id], WorldAt(s, ask, n).demand[d.id];
      var want := 1 + GrowthSum(s.pressure, n, d.id);
      exists ws ::
        && before.next + Backlogs.Births(before, DueOn(s, ask, d, n), want) <= U64_MAX
        && Backlogs.TickIs(d, before, DueOn(s, ask, d, n), want, InStock(WorldAt(s, ask, n).plant, d), n, after, ws)
        && SaidOf(WorldAt(s, ask, n).said, d.id) == SaidOf(WorldAt(s, ask, n - 1).said, d.id) + DemandTagged(d.id, ws, n)
  {
    hide *;
    var d := s.demand[i];
    SceneParts(s);
    DemandRuns(s, ask, n - 1, n, i);
    DemandRuns(s, ask, n, n, i);
    Backlogs.RunTold(d, Calls(s, ask, d, n), n);
    CallsAt(s, ask, d, n, n);
    CallUnfold(s, ask, d, n);
    PressureRuns(s, ask, n);
    SpawnsWanted(s.pressure, n, d.id);
    AgentsRun(s, ask, n - 1);
    AgentRuns.PausedExactly(s.agents, DemandEngine.DemandIds(s.demand), ask, n - 1, d.id, n);
    DemandSays(s, ask, n, i);
    DueIs(s, ask, d, n);
  }

  lemma DueIs(s: Scene, ask: Agents.Backend, d: Demand, n: nat)
    requires Agents.AgentsOk(s.agents) && 0 < n < U64_MAX
    ensures DueOn(s, ask, d, n) <==> Due(d.schedule, n) && !AgentRuns.HeldBack(s.agents, DemandEngine.DemandIds(s.demand), ask, n - 1, d.id, n)
  {
    hide AgentRuns.HeldBack;
  }

  /** After every tick each backlog is accounted for and in order, and nothing in it is past its deadline. */
  lemma SceneBacklogs(s: Scene, ask: Agents.Backend, n: nat, i: nat)
    requires SceneOk(s) && n < U64_MAX && MAX_OUTSTANDING * n <= U64_MAX && i < |s.demand|
    ensures s.demand[i].id in WorldAt(s, ask, n).demand && DemandOk(s.demand[i], WorldAt(s, ask, n).demand[s.demand[i].id], n)
  {
    hide *;
    SceneParts(s);
    DemandRuns(s, ask, n, n, i);
    DemandInvariant(s.demand[i], Calls(s, ask, s.demand[i], n), n);
  }

  // ---- Milestones and pressure together ----

  lemma SeenActive(s: Scene, ask: Agents.Backend, m: nat, k: nat)
    requires 0 < k <= m <= U64_MAX
    ensures Seens(s, ask, m)[k - 1].active == PressureAt(s.pressure, k).active.Keys
  {
    InputsAt(s, ask, m, k);
    InputsAre(s, ask, k);
    PressureRuns(s, ask, k);
    hide WorldAt, PressureAt, SeenAt, Seens;
  }

  lemma SeensShow(s: Scene, ask: Agents.Backend, m: nat)
    requires m <= U64_MAX
    ensures Milestones.ShowsPressures(s.pressure, Seens(s, ask, m))
  {
    hide WorldAt, PressureAt, SeenAt, Seens;
    forall k | 1 <= k <= m ensures Seens(s, ask, m)[k - 1].active == PressureAt(s.pressure, k).active.Keys {
      SeenActive(s, ask, m, k);
    }
  }

  /** A milestone on the end of a pressure has fired, once, at that pressure's end tick, if any tick saw it active. */
  lemma SceneMilestones(s: Scene, ask: Agents.Backend, n: nat, i: nat, p: Pressure)
    requires SceneOk(s) && n <= U64_MAX && i < |s.milestones| && p in s.pressure
    requires s.milestones[i].trigger == Milestones.PressureDeactivated(p.id)
    ensures var fired := if First(p) < p.EndTick() <= n then Some(p.EndTick()) else None;
      && Milestones.StateOf(WorldAt(s, ask, n).milestones, s.milestones[i].id).firedAt == fired
      && Milestones.LogOf(WorldAt(s, ask, n).milestones.events, s.milestones[i].id) == Milestones.LogFor(s.milestones[i].id, fired)
  {
    hide *;
    SceneParts(s);
    MilestonesRun(s, ask, n, n);
    SeensShow(s, ask, n);
    Milestones.FiresOnceFirst(s.milestones, Seens(s, ask, n), n, i);
    Milestones.PressureMilestones(s.pressure, Seens(s, ask, n), p, n);
  }
}
