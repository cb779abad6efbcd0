/** Whole runs of a scene: each system's theorems, on the states the engine actually goes through. */
module Sl1Runs {
  import opened Base
  import opened Order
  import opened Sl1Scene
  import opened Pressures
  import Plants
  import PlantRuns
  import TransformRuns
  import opened Demands
  import Goals
  import GoalRuns
  import Boards
  import BoardRuns
  import Agents
  import AgentRuns
  import Milestones
  import DemandEngine
  import opened Sl1State
  import opened TickEngine

  // ---- What each system is handed on tick n of a run ----

  ghost function WeatherAt(s: Scene, n: nat): Plants.Weather
    requires 0 < n <= U64_MAX
  {
    hide *;
    var r := PressureTick(s.pressure, PressureAt(s.pressure, n - 1), n);
    Plants.Weather(r.0.quota, r.1)
  }

  ghost function SnapshotAt(s: Scene, ask: Agents.Backend, n: nat): Goals.Snapshot
    requires n <= U64_MAX
  {
    hide *;
    SnapshotOf(WorldAt(s, ask, n).plant, WorldAt(s, ask, n).demand)
  }

  ghost function ViewAt(s: Scene, ask: Agents.Backend, n: nat): Boards.View
    requires n <= U64_MAX
  {
    hide *;
    ViewOf(WorldAt(s, ask, n).plant)
  }

  ghost function SeenAt(s: Scene, ask: Agents.Backend, n: nat): Milestones.Seen
    requires n <= U64_MAX
  {
    hide *;
    SeenOf(WorldAt(s, ask, n).pressure, WorldAt(s, ask, n).boards)
  }

  ghost function CallAt(s: Scene, ask: Agents.Backend, d: Demand, n: nat): Call
    requires 0 < n <= U64_MAX
  {
    hide *;
    Call(Agents.Paused(WorldAt(s, ask, n - 1).agents.pauses, d.id, n),
         EffectiveSpawnCount(WorldAt(s, ask, n).pressure.growth, d.id),
         DemandEngine.Stocked(d, WorldAt(s, ask, n).plant.inv))
  }

  ghost function Weathers(s: Scene, m: nat): (ws: seq<Plants.Weather>)
    requires m <= U64_MAX
    ensures |ws| == m
  {
    hide *;
    seq(m, i requires 0 <= i < m => WeatherAt(s, i + 1))
  }

  ghost function Snapshots(s: Scene, ask: Agents.Backend, m: nat): (ss: seq<Goals.Snapshot>)
    requires m <= U64_MAX
    ensures |ss| == m
  {
    hide *;
    seq(m, i requires 0 <= i < m => SnapshotAt(s, ask, i + 1))
  }

  ghost function Views(s: Scene, ask: Agents.Backend, m: nat): (vs: seq<Boards.View>)
    requires m <= U64_MAX
    ensures |vs| == m
  {
    hide *;
    seq(m, i requires 0 <= i < m => ViewAt(s, ask, i + 1))
  }

  ghost function Seens(s: Scene, ask: Agents.Backend, m: nat): (vs: seq<Milestones.Seen>)
    requires m <= U64_MAX
    ensures |vs| == m
  {
    hide *;
    seq(m, i requires 0 <= i < m => SeenAt(s, ask, i + 1))
  }

  ghost function Calls(s: Scene, ask: Agents.Backend, d: Demand, m: nat): (cs: seq<Call>)
    requires m <= U64_MAX
    ensures |cs| == m
  {
    hide *;
    seq(m, i requires 0 <= i < m => CallAt(s, ask, d, i + 1))
  }

  lemma InputsAt(s: Scene, ask: Agents.Backend, m: nat, n: nat)
    requires 0 < n <= m <= U64_MAX
    ensures Snapshots(s, ask, m)[n - 1] == SnapshotAt(s, ask, n)
    ensures Views(s, ask, m)[n - 1] == ViewAt(s, ask, n)
    ensures Seens(s, ask, m)[n - 1] == SeenAt(s, ask, n)
    ensures Weathers(s, m)[n - 1] == WeatherAt(s, n)
  {
    hide SnapshotAt, ViewAt, SeenAt, WeatherAt, WorldAt;
  }

  lemma CallsAt(s: Scene, ask: Agents.Backend, d: Demand, m: nat, n: nat)
    requires 0 < n <= m <= U64_MAX
    ensures Calls(s, ask, d, m)[n - 1] == CallAt(s, ask, d, n)
  {
    hide CallAt, WorldAt;
  }

  lemma InputsAre(s: Scene, ask: Agents.Backend, n: nat)
    requires n <= U64_MAX
    ensures SnapshotAt(s, ask, n) == SnapshotOf(WorldAt(s, ask, n).plant, WorldAt(s, ask, n).demand)
    ensures ViewAt(s, ask, n) == ViewOf(WorldAt(s, ask, n).plant)
    ensures SeenAt(s, ask, n) == SeenOf(WorldAt(s, ask, n).pressure, WorldAt(s, ask, n).boards)
  {
    hide WorldAt, SnapshotOf, ViewOf, SeenOf;
  }

  // ---- One tick, read off the state it leaves ----

  lemma NextFields(s: Scene, w: World, ask: Agents.Backend, now: u64, r: World)
    requires r == Next(s, w, ask, now)
    ensures r.pressure == PressureTick(s.pressure, w.pressure, now).0
    ensures r.plant == Plants.PlantTick(LayoutOf(s), w.plant, WeatherOn(s, w, now), now)
    ensures r.demand == DemandEngine.DemandFirst(s.demand, |s.demand|, w.demand, DemandEngine.Market(w.agents.pauses, r.pressure.growth, r.plant.inv), now).0
    ensures r.said == w.said + DemandEngine.DemandFirst(s.demand, |s.demand|, w.demand, DemandEngine.Market(w.agents.pauses, r.pressure.growth, r.plant.inv), now).1
    ensures r.goals == Goals.GoalTick(RulesOf(s), w.goals, SnapshotOf(r.plant, r.demand), now)
    ensures r.boards == Boards.BoardTick(BoardsOf(s), s.places, w.boards, ViewOf(r.plant), now)
    ensures r.agents == Agents.AgentTick(s.agents, DemandEngine.DemandIds(s.demand), w.agents, ask, now)
    ensures r.milestones == Milestones.MilestoneTick(s.milestones, w.milestones, SeenOf(r.pressure, r.boards), now)
  {
    hide PressureTick, Plants.PlantTick, WeatherOn, DemandEngine.DemandFirst, Goals.GoalTick, Boards.BoardTick, Agents.DecideFirst;
    hide Milestones.MilestoneTick, LayoutOf, RulesOf, BoardsOf, SnapshotOf, ViewOf, SeenOf, DemandEngine.DemandIds, Agents.PruneFirst;
  }

  lemma StartFields(s: Scene)
    ensures StartOf(s) == World(Plants.Opening(LayoutOf(s)), NoDemands(s.demand), [], Calm, Goals.FreshGoals(RulesOf(s)),
      Boards.FreshBoards(BoardsOf(s)), Agents.FreshAgents(s.agents), Milestones.FreshMilestones(s.milestones))
  {
  }

  // ---- Every component runs as its own module says ----

  lemma PressureRunUnfold(ps: seq<Pressure>, n: nat)
    requires n <= U64_MAX
    ensures PressureAt(ps, n) == if n == 0 then Calm else PressureTick(ps, PressureAt(ps, n - 1), n).0
  {
    hide PressureTick;
  }

  lemma {:induction false} PressureRuns(s: Scene, ask: Agents.Backend, n: nat)
    requires n <= U64_MAX
    ensures WorldAt(s, ask, n).pressure == PressureAt(s.pressure, n)
  {
    hide *;
    TickEngine.RunUnfold(s, ask, n);
    PressureRunUnfold(s.pressure, n);
    if n == 0 {
      StartFields(s);
    } else {
      PressureRuns(s, ask, n - 1);
      NextFields(s, WorldAt(s, ask, n - 1), ask, n, WorldAt(s, ask, n));
    }
  }

  lemma WeatherIs(s: Scene, w: World, n: nat)
    requires 0 < n <= U64_MAX && w.pressure == PressureAt(s.pressure, n - 1)
    ensures WeatherOn(s, w, n) == WeatherAt(s, n)
  {
    hide PressureTick, PressureAt;
  }

  lemma PlantRunUnfold(lay: Plants.Layout, ws: seq<Plants.Weather>, n: nat)
    requires n <= |ws| <= U64_MAX
    ensures PlantRuns.PlantAt(lay, ws, n) == if n == 0 then Plants.Opening(lay) else Plants.PlantTick(lay, PlantRuns.PlantAt(lay, ws, n - 1), ws[n - 1], n)
  {
  }

  lemma {:induction false} PlantsRun(s: Scene, ask: Agents.Backend, n: nat, m: nat)
    requires n <= m <= U64_MAX
    ensures WorldAt(s, ask, n).plant == PlantRuns.PlantAt(LayoutOf(s), Weathers(s, m), n)
  {
    hide *;
    TickEngine.RunUnfold(s, ask, n);
    PlantRunUnfold(LayoutOf(s), Weathers(s, m), n);
    if n == 0 {
      StartFields(s);
    } else {
      PlantsRun(s, ask, n - 1, m);
      InputsAt(s, ask, m, n);
      PressureRuns(s, ask, n - 1);
      NextFields(s, WorldAt(s, ask, n - 1), ask, n, WorldAt(s, ask, n));
      WeatherIs(s, WorldAt(s, ask, n - 1), n);
    }
  }

  lemma GoalRunUnfold(r: Goals.Rules, ss: seq<Goals.Snapshot>, n: nat)
    requires n <= |ss| <= U64_MAX
    ensures GoalRuns.GoalsAt(r, ss, n) == if n == 0 then Goals.FreshGoals(r) else Goals.GoalTick(r, GoalRuns.GoalsAt(r, ss, n - 1), ss[n - 1], n)
  {
    hide Goals.GoalTick;
  }

  lemma {:induction false} GoalsRun(s: Scene, ask: Agents.Backend, n: nat, m: nat)
    requires n <= m <= U64_MAX
    ensures WorldAt(s, ask, n).goals == GoalRuns.GoalsAt(RulesOf(s), Snapshots(s, ask, m), n)
  {
    hide *;
    TickEngine.RunUnfold(s, ask, n);
    GoalRunUnfold(RulesOf(s), Snapshots(s, ask, m), n);
    if n == 0 {
      StartFields(s);
    } else {
      GoalsRun(s, ask, n - 1, m);
      InputsAt(s, ask, m, n);
      InputsAre(s, ask, n);
      NextFields(s, WorldAt(s, ask, n - 1), ask, n, WorldAt(s, ask, n));
    }
  }

  lemma BoardRunUnfold(o: Boards.Observability, places: seq<Place>, vs: seq<Boards.View>, n: nat)
    requires n <= |vs| <= U64_MAX
    ensures BoardRuns.BoardsAt(o, places, vs, n)
      == if n == 0 then Boards.FreshBoards(o) else Boards.BoardTick(o, places, BoardRuns.BoardsAt(o, places, vs, n - 1), vs[n - 1], n)
  {
    hide Boards.BoardTick;
  }

  lemma {:induction false} BoardsRun(s: Scene, ask: Agents.Backend, n: nat, m: nat)
    requires n <= m <= U64_MAX
    ensures WorldAt(s, ask, n).boards == BoardRuns.BoardsAt(BoardsOf(s), s.places, Views(s, ask, m), n)
  {
    hide *;
    TickEngine.RunUnfold(s, ask, n);
    BoardRunUnfold(BoardsOf(s), s.places, Views(s, ask, m), n);
    if n == 0 {
      StartFields(s);
    } else {
      BoardsRun(s, ask, n - 1, m);
      InputsAt(s, ask, m, n);
      InputsAre(s, ask, n);
      NextFields(s, WorldAt(s, ask, n - 1), ask, n, WorldAt(s, ask, n));
    }
  }

  lemma MilestoneRunUnfold(ms: seq<Milestones.Milestone>, vs: seq<Milestones.Seen>, n: nat)
    requires n <= |vs| <= U64_MAX
    ensures Milestones.MilestonesAt(ms, vs, n)
      == if n == 0 then Milestones.FreshMilestones(ms) else Milestones.MilestoneTick(ms, Milestones.MilestonesAt(ms, vs, n - 1), vs[n - 1], n)
  {
    hide Milestones.MilestoneTick;
  }

  lemma {:induction false} MilestonesRun(s: Scene, ask: Agents.Backend, n: nat, m: nat)
    requires n <= m <= U64_MAX
    ensures WorldAt(s, ask, n).milestones == Milestones.MilestonesAt(s.milestones, Seens(s, ask, m), n)
  {
    hide *;
    TickEngine.RunUnfold(s, ask, n);
    MilestoneRunUnfold(s.milestones, Seens(s, ask, m), n);
    if n == 0 {
      StartFields(s);
    } else {
      MilestonesRun(s, ask, n - 1, m);
      InputsAt(s, ask, m, n);
      InputsAre(s, ask, n);
      NextFields(s, WorldAt(s, ask, n - 1), ask, n, WorldAt(s, ask, n));
    }
  }

  lemma AgentRunUnfold(agents: seq<Agents.Agent>, demands: seq<Id>, ask: Agents.Backend, n: nat)
    requires Agents.AgentsOk(agents) && n < U64_MAX
    ensures AgentRuns.AgentsAt(agents, demands, ask, n)
      == if n == 0 then Agents.FreshAgents(agents) else Agents.AgentTick(agents, demands, AgentRuns.AgentsAt(agents, demands, ask, n - 1), ask, n)
  {
    hide Agents.AgentTick;
  }

  lemma {:induction false} AgentsRun(s: Scene, ask: Agents.Backend, n: nat)
    requires Agents.AgentsOk(s.agents) && n < U64_MAX
    ensures WorldAt(s, ask, n).agents == AgentRuns.AgentsAt(s.agents, DemandEngine.DemandIds(s.demand), ask, n)
  {
    hide *;
    TickEngine.RunUnfold(s, ask, n);
    AgentRunUnfold(s.agents, DemandEngine.DemandIds(s.demand), ask, n);
    if n == 0 {
      StartFields(s);
    } else {
      AgentsRun(s, ask, n - 1);
      NextFields(s, WorldAt(s, ask, n - 1), ask, n, WorldAt(s, ask, n));
    }
  }

  // ---- Demand: one entry of a map ----

  lemma DemandIdsDiffer(ds: seq<Demand>, i: nat, j: nat)
    requires SortedBy(ds, DemandKey) && i < |ds| && j < |ds|
    ensures ds[i].id == ds[j].id <==> i == j
  {
    if ds[i].id == ds[j].id { SortedDistinct(ds, DemandKey, i, j); }
  }

  lemma {:induction false} DemandFirstAt(ds: seq<Demand>, k: nat, i: nat, demand: map<Id, DemandState>, m: DemandEngine.Market, now: u64)
    requires SortedBy(ds, DemandKey) && k <= |ds| && i < |ds| && ds[i].id in demand
    ensures var r := DemandEngine.DemandFirst(ds, k, demand, m, now).0;
      && ds[i].id in r
      && r[ds[i].id] == if i < k then DemandEngine.TickOf(ds[i], demand[ds[i].id], m, now).0 else demand[ds[i].id]
  {
    hide DemandEngine.TickOf, DemandTagged;
    if k > 0 {
      DemandFirstAt(ds, k - 1, i, demand, m, now);
      DemandIdsDiffer(ds, i, k - 1);
    }
  }

  lemma DemandRunUnfold(d: Demand, cs: seq<Call>, n: nat)
    requires n <= |cs| <= U64_MAX
    ensures DemandAt(d, cs, n) == if n == 0 then NoDemand
      else DemandTick(d, DemandAt(d, cs, n - 1), cs[n - 1].paused, cs[n - 1].want, cs[n - 1].stocked, n).0
  {
  }

  lemma CallIs(s: Scene, ask: Agents.Backend, d: Demand, n: nat, was: DemandState)
    requires 0 < n <= U64_MAX
    ensures var m := DemandEngine.Market(WorldAt(s, ask, n - 1).agents.pauses, WorldAt(s, ask, n).pressure.growth, WorldAt(s, ask, n).plant.inv);
      var c := CallAt(s, ask, d, n);
      DemandEngine.TickOf(d, was, m, n) == DemandTick(d, was, c.paused, c.want, c.stocked, n)
  {
    hide DemandTick, WorldAt, EffectiveSpawnCount, DemandEngine.Stocked, Agents.Paused;
  }

  lemma {:induction false} DemandRuns(s: Scene, ask: Agents.Backend, n: nat, m: nat, i: nat)
    requires SortedBy(s.demand, DemandKey) && n <= m <= U64_MAX && i < |s.demand|
    ensures s.demand[i].id in WorldAt(s, ask, n).demand
    ensures WorldAt(s, ask, n).demand[s.demand[i].id] == DemandAt(s.demand[i], Calls(s, ask, s.demand[i], m), n)
  {
    hide *;
    var d := s.demand[i];
    TickEngine.RunUnfold(s, ask, n);
    DemandRunUnfold(d, Calls(s, ask, d, m), n);
    if n == 0 {
      StartFields(s);
      StartsEmpty(s.demand, i);
    } else {
      DemandRuns(s, ask, n - 1, m, i);
      CallsAt(s, ask, d, m, n);
      var w, r := WorldAt(s, ask, n - 1), WorldAt(s, ask, n);
      NextFields(s, w, ask, n, r);
      DemandFirstAt(s.demand, |s.demand|, i, w.demand, DemandEngine.Market(w.agents.pauses, r.pressure.growth, r.plant.inv), n);
      CallIs(s, ask, d, n, w.demand[d.id]);
    }
  }

  /** The messages about one demand. */
  function SaidOf(ms: seq<DemandMessage>, id: Id): seq<DemandMessage> {
    if ms == [] then [] else SaidOf(ms[..|ms| - 1], id) + if ms[|ms| - 1].id == id then [ms[|ms| - 1]] else []
  }

  lemma SaidMore(ms: seq<DemandMessage>, m: DemandMessage, id: Id)
    ensures SaidOf(ms + [m], id) == SaidOf(ms, id) + if m.id == id then [m] else []
  {
    assert (ms + [m])[..|ms|] == ms;
  }

  lemma {:induction false} SaidJoins(a: seq<DemandMessage>, b: seq<DemandMessage>, id: Id)
    ensures SaidOf(a + b, id) == SaidOf(a, id) + SaidOf(b, id)
  {
    if b == [] {
      assert a + b == a && SaidOf(b, id) == [];
    } else {
      hide SaidOf;
      var front, last := b[..|b| - 1], b[|b| - 1];
      SaidJoins(a, front, id);
      SaidMore(a + front, last, id);
      SaidMore(front, last, id);
      assert front + [last] == b && a + front + [last] == a + b;
    }
  }

  lemma {:induction false} SaidTagged(id: Id, ws: seq<DemandWarning>, now: u64, about: Id)
    ensures SaidOf(DemandTagged(id, ws, now), about) == if id == about then DemandTagged(id, ws, now) else []
  {
    if ws != [] {
      var front := ws[..|ws| - 1];
      SaidTagged(id, front, now, about);
      assert DemandTagged(id, ws, now) == DemandTagged(id, front, now) + [DemandMessage(id, ws[|front|], now)];
      assert DemandTagged(id, ws, now)[..|front|] == DemandTagged(id, front, now);
    }
  }

  lemma {:induction false} SaidFirst(ds: seq<Demand>, k: nat, i: nat, demand: map<Id, DemandState>, m: DemandEngine.Market, now: u64)
    requires SortedBy(ds, DemandKey) && k <= |ds| && i < |ds| && ds[i].id in demand
    ensures SaidOf(DemandEngine.DemandFirst(ds, k, demand, m, now).1, ds[i].id)
      == if i < k then DemandTagged(ds[i].id, DemandEngine.TickOf(ds[i], demand[ds[i].id], m, now).1, now) else []
  {
    hide DemandEngine.TickOf, DemandTagged, SaidOf;
    if k > 0 {
      SaidFirst(ds, k - 1, i, demand, m, now);
      DemandFirstAt(ds, k - 1, i, demand, m, now);
      DemandIdsDiffer(ds, i, k - 1);
      var (before, said) := DemandEngine.DemandFirst(ds, k - 1, demand, m, now);
      if ds[k - 1].id in before {
        var ws := DemandEngine.TickOf(ds[k - 1], before[ds[k - 1].id], m, now).1;
        SaidJoins(said, DemandTagged(ds[k - 1].id, ws, now), ds[i].id);
        SaidTagged(ds[k - 1].id, ws, now, ds[i].id);
      }
    } else {
      assert SaidOf([], ds[i].id) == [] by { NothingSaid(ds[i].id); }
    }
  }

  lemma NothingSaid(id: Id)
    ensures SaidOf([], id) == []
  {
  }

  /** What tick n says of a demand is what that demand says on its own run. */
  lemma DemandSays(s: Scene, ask: Agents.Backend, n: nat, i: nat)
    requires SortedBy(s.demand, DemandKey) && 0 < n <= U64_MAX && i < |s.demand|
    ensures s.demand[i].id in WorldAt(s, ask, n - 1).demand
    ensures var d := s.demand[i]; var c := CallAt(s, ask, d, n); var was := WorldAt(s, ask, n - 1).demand[d.id];
      SaidOf(WorldAt(s, ask, n).said, d.id)
        == SaidOf(WorldAt(s, ask, n - 1).said, d.id) + DemandTagged(d.id, DemandTick(d, was, c.paused, c.want, c.stocked, n).1, n)
  {
    hide *;
    var d := s.demand[i];
    TickEngine.RunUnfold(s, ask, n);
    DemandRuns(s, ask, n - 1, n, i);
    var w, r := WorldAt(s, ask, n - 1), WorldAt(s, ask, n);
    var m := DemandEngine.Market(w.agents.pauses, r.pressure.growth, r.plant.inv);
    NextFields(s, w, ask, n, r);
    SaidFirst(s.demand, |s.demand|, i, w.demand, m, n);
    SaidJoins(w.said, DemandEngine.DemandFirst(s.demand, |s.demand|, w.demand, m, n).1, d.id);
    CallIs(s, ask, d, n, w.demand[d.id]);
  }

  lemma StartsEmpty(ds: seq<Demand>, i: nat)
    requires i < |ds|
    ensures ds[i].id in NoDemands(ds) && NoDemands(ds)[ds[i].id] == NoDemand
  {
    assert ds[i] in ds;
  }
}
