/** What a scene shows after every tick, told from outside: from stock, deliveries, what is running, and what backends answer. */
module SceneMeanings {
  import opened Base
  import opened Order
  import opened Sl1Scene
  import opened Pressures
  import Plants
  import PlantRuns
  import TransformLife
  import Turns
  import Observations
  import Goals
  import GoalRuns
  import GoalMeanings
  import Boards
  import BoardRuns
  import BoardMeanings
  import Agents
  import AgentRuns
  import Milestones
  import DemandEngine
  import opened Sl1State
  import opened TickEngine
  import opened Sl1Runs
  import opened SceneTheorems

  // ---- What is seen of a run from outside ----

  /** A scene the engine can run, laid out as the loader guarantees. */
  ghost predicate Runnable(s: Scene) { SceneOk(s) && PlantRuns.Laid(LayoutOf(s), SourceSlots(s.pressure)) }

  ghost function SightAt(s: Scene, ask: Agents.Backend, n: nat): GoalMeanings.Sight
    requires n <= U64_MAX
  {
    hide *;
    var w := WorldAt(s, ask, n);
    GoalMeanings.Sight(LayoutOf(s), w.plant, map id | id in w.demand :: w.demand[id].dropped)
  }

  ghost function Sights(s: Scene, ask: Agents.Backend, m: nat): (vs: seq<GoalMeanings.Sight>)
    requires m <= U64_MAX
    ensures |vs| == m
  {
    hide *;
    seq(m, i requires 0 <= i < m => SightAt(s, ask, i + 1))
  }

  lemma RunnableIs(s: Scene)
    ensures Runnable(s) <==> SceneOk(s) && PlantRuns.Laid(LayoutOf(s), SourceSlots(s.pressure))
  {
    hide SceneOk, PlantRuns.Laid;
  }

  lemma SceneObserved(s: Scene, ask: Agents.Backend, n: nat)
    requires Runnable(s) && n <= U64_MAX
    ensures LayoutOf(s).initial.Keys == LayoutOf(s).caps.storage.Keys && Observations.Observed(LayoutOf(s), WorldAt(s, ask, n).plant, n)
  {
    hide *;
    RunnableIs(s);
    SceneParts(s);
    WeathersFit(s, n);
    PlantsRun(s, ask, n, n);
    Observations.LaidKeys(LayoutOf(s), SourceSlots(s.pressure));
    Observations.ObservedOnRun(LayoutOf(s), SourceSlots(s.pressure), Weathers(s, n), n);
  }

  lemma SightShows(s: Scene, ask: Agents.Backend, n: nat)
    requires Runnable(s) && n <= U64_MAX
    ensures GoalMeanings.Shows(SightAt(s, ask, n), SnapshotAt(s, ask, n), n)
  {
    SceneObserved(s, ask, n);
    hide WorldAt, LayoutOf, Runnable, Observations.Observed;
  }

  lemma PlacesSorted(s: Scene)
    requires Runnable(s)
    ensures SortedBy(s.places, PlaceKey) && RulesOf(s).places == s.places && Goals.RulesOk(RulesOf(s))
  {
  }

  lemma SightsShow(s: Scene, ask: Agents.Backend, m: nat)
    requires Runnable(s) && m <= U64_MAX
    ensures GoalMeanings.AllShow(RulesOf(s), Sights(s, ask, m), Snapshots(s, ask, m))
  {
    hide *;
    PlacesSorted(s);
    forall k | 0 <= k < m ensures GoalMeanings.Shows(Sights(s, ask, m)[k], Snapshots(s, ask, m)[k], k + 1) {
      InputsAt(s, ask, m, k + 1);
      SightsAt(s, ask, m, k + 1);
      SightShows(s, ask, k + 1);
    }
    GoalMeanings.AllShown(RulesOf(s), Sights(s, ask, m), Snapshots(s, ask, m), s.places);
  }

  lemma SightsAt(s: Scene, ask: Agents.Backend, m: nat, n: nat)
    requires 0 < n <= m <= U64_MAX
    ensures Sights(s, ask, m)[n - 1] == SightAt(s, ask, n)
  {
    hide SightAt;
  }

  /**
   * A failure condition is breached on tick n exactly if, of a stale target, nothing was stocked or delivered within
   * the threshold; of a place state, the running transforms use that share of the bucket; or the objective it counts
   * was missed on more ticks than allowed.
   */
  lemma SceneBreaches(s: Scene, ask: Agents.Backend, f: Goals.Failure, n: nat)
    requires Runnable(s) && 0 < n <= U64_MAX
    ensures GoalRuns.BreachedOn(RulesOf(s), Snapshots(s, ask, n), f, n) <==> GoalMeanings.Holds(RulesOf(s), Sights(s, ask, n), f, n)
  {
    hide *;
    SightsShow(s, ask, n);
    GoalMeanings.BreachMeans(RulesOf(s), Sights(s, ask, n), Snapshots(s, ask, n), f, n);
  }

  /** The outcome after tick n, told from stock, deliveries and running transforms alone. */
  lemma SceneOutcomeTold(s: Scene, ask: Agents.Backend, n: nat)
    requires Runnable(s) && n <= U64_MAX
    ensures var o, r, vs := WorldAt(s, ask, n).goals.outcome, RulesOf(s), Sights(s, ask, n);
      && (forall id :: o == Goals.Lost(id) <==> exists t: nat, i :: t <= n && GoalMeanings.LosesOn(r, vs, i, t) && r.failures[i].id == id)
      && (o == Goals.Won <==> GoalMeanings.WinsBy(r, vs, n))
  {
    hide *;
    PlacesSorted(s);
    SightsShow(s, ask, n);
    GoalsRun(s, ask, n, n);
    GoalMeanings.OutcomeTold(RulesOf(s), Sights(s, ask, n), Snapshots(s, ask, n), n);
  }

  // ---- Tags, dashboards, metrics, alerts ----

  lemma SightIs(s: Scene, ask: Agents.Backend, n: nat)
    requires n <= U64_MAX
    ensures SightAt(s, ask, n).lay == LayoutOf(s) && SightAt(s, ask, n).plant == WorldAt(s, ask, n).plant
  {
    hide WorldAt, LayoutOf;
  }

  lemma SightViewed(s: Scene, ask: Agents.Backend, n: nat)
    requires Runnable(s) && n <= U64_MAX
    ensures BoardMeanings.Viewed(SightAt(s, ask, n), ViewAt(s, ask, n), n)
  {
    SceneObserved(s, ask, n);
    hide WorldAt, LayoutOf, Runnable, Observations.Observed;
  }

  /**
   * After tick n a declared slot shows no data exactly if it was neither stocked at the start nor delivered to;
   * otherwise its tag names the latest of those ticks, and is stale exactly if that is over the thing's budget ago.
   */
  lemma SceneTags(s: Scene, ask: Agents.Backend, n: nat, slot: Slot)
    requires Runnable(s) && n <= U64_MAX && slot in LayoutOf(s).caps.storage
    ensures slot in WorldAt(s, ask, n).plant.stamps
    ensures var lay, p := LayoutOf(s), WorldAt(s, ask, n).plant; var f, budget := p.stamps[slot], Plants.Budget(lay.budgets, slot.1);
      && (f == Plants.NoData || f.Ok? || f.Stale?)
      && (f == Plants.NoData <==> forall t: nat :: !Observations.SeenOn(lay, p.history, slot, t))
      && (f.Ok? || f.Stale? ==> f.lastSet <= n && Observations.LatestSeen(lay, p.history, slot, f.lastSet))
      && (f.Ok? || f.Stale? ==> (f.Stale? <==> budget.Some? && n - f.lastSet > budget.value))
  {
    hide *;
    RunnableIs(s);
    SceneParts(s);
    WeathersFit(s, n);
    PlantsRun(s, ask, n, n);
    Observations.TagMeans(LayoutOf(s), SourceSlots(s.pressure), Weathers(s, n), n, slot);
  }

  lemma StatusIs(d: Boards.Dashboard, vs: seq<Boards.View>, n: nat, v: Boards.View)
    requires 0 < n <= |vs| <= U64_MAX && vs[n - 1] == v
    ensures BoardRuns.StatusAt(d, vs, n) == Boards.StatusOf(d, v.stamps, n)
  {
    hide Boards.StatusOf;
  }

  lemma ReadingIs(o: Boards.Observability, places: seq<Place>, vs: seq<Boards.View>, n: nat, m: Boards.Metric, v: Boards.View)
    requires 0 < n <= |vs| <= U64_MAX && vs[n - 1] == v && SortedBy(o.metrics, Boards.MetricKey) && m in o.metrics
    ensures Boards.FindMetric(o.metrics, m.id) == Some(m) && BoardRuns.Reading(o, places, vs, m.id, n) == Boards.Measure(o, places, m, v, n)
  {
    var f := Boards.FindMetric(o.metrics, m.id).value;
    var i :| 0 <= i < |o.metrics| && o.metrics[i] == m;
    var j :| 0 <= j < |o.metrics| && o.metrics[j] == f;
    SortedDistinct(o.metrics, Boards.MetricKey, i, j);
    hide Boards.Measure;
  }

  lemma MetricsSorted(o: Boards.Observability, places: seq<Place>)
    requires Boards.BoardsOk(o, places)
    ensures SortedBy(o.metrics, Boards.MetricKey)
  {
  }

  /**
   * After tick n a dashboard is fresh exactly if every thing it depends on was stocked or delivered somewhere within
   * its objective, shows no data exactly if one never was, and else lags by the least limit within which all were.
   */
  lemma SceneDashboards(s: Scene, ask: Agents.Backend, n: nat, i: nat)
    requires Runnable(s) && 0 < n <= U64_MAX && i < |BoardsOf(s).dashboards|
    ensures var d, v := BoardsOf(s).dashboards[i], SightAt(s, ask, n); var st := Boards.BoardOf(WorldAt(s, ask, n).boards, d.id);
      && (st.Fresh? <==> BoardMeanings.AllFresh(d, v, d.slo, n))
      && (st.Missing? <==> !BoardMeanings.AllFresh(d, v, n, n))
      && (st.Lagging? ==> st.age > d.slo && BoardMeanings.Freshest(d, v, st.age, n))
  {
    hide *;
    var d := BoardsOf(s).dashboards[i];
    RunnableIs(s);
    SceneParts(s);
    BoardsRun(s, ask, n, n);
    BoardRuns.BoardHistory(BoardsOf(s), s.places, Views(s, ask, n), n, i);
    InputsAt(s, ask, n, n);
    StatusIs(d, Views(s, ask, n), n, ViewAt(s, ask, n));
    SightViewed(s, ask, n);
    BoardMeanings.StatusMeans(d, SightAt(s, ask, n), ViewAt(s, ask, n), n);
  }

  /** After tick n a metric holds the share of its bucket that is in use, the stock of its slot, or how its dashboard lags. */
  lemma SceneMetrics(s: Scene, ask: Agents.Backend, n: nat, m: Boards.Metric)
    requires Runnable(s) && 0 < n <= U64_MAX && m in BoardsOf(s).metrics
    ensures BoardMeanings.Reads(BoardsOf(s), s.places, m, SightAt(s, ask, n), n, Boards.MetricOf(WorldAt(s, ask, n).boards, m.id))
  {
    hide *;
    RunnableIs(s);
    PlacesSorted(s);
    SceneParts(s);
    MetricsSorted(BoardsOf(s), s.places);
    BoardsRun(s, ask, n, n);
    InputsAt(s, ask, n, n);
    ReadingIs(BoardsOf(s), s.places, Views(s, ask, n), n, m, ViewAt(s, ask, n));
    BoardRuns.MetricHistory(BoardsOf(s), s.places, Views(s, ask, n), n, m.id);
    SightViewed(s, ask, n);
    BoardMeanings.MeasureMeans(BoardsOf(s), s.places, m, SightAt(s, ask, n), ViewAt(s, ask, n), n);
  }

  /** The alert's metric has a reading after tick n, and it is within the test. */
  ghost predicate SoundsAfter(s: Scene, ask: Agents.Backend, a: Boards.Alert, n: nat)
    requires n <= U64_MAX
  {
    var m := Boards.MetricOf(WorldAt(s, ask, n).boards, a.metric);
    n > 0 && m.Value? && BoardMeanings.Alarming(a.test, m.value)
  }

  lemma AlarmIs(s: Scene, ask: Agents.Backend, m: nat, a: Boards.Alert, n: nat)
    requires Runnable(s) && n <= m <= U64_MAX && a in BoardsOf(s).alerts
    ensures BoardMeanings.AlarmOn(BoardsOf(s), s.places, Views(s, ask, m), a, n) <==> SoundsAfter(s, ask, a, n)
  {
    hide *;
    RunnableIs(s);
    SceneParts(s);
    BoardsRun(s, ask, n, m);
    AlertMetric(BoardsOf(s), s.places, a);
    if n > 0 { BoardRuns.MetricHistory(BoardsOf(s), s.places, Views(s, ask, m), n, a.metric); }
    AlarmUnfold(BoardsOf(s), s.places, Views(s, ask, m), a, n);
    SoundsUnfold(s, ask, a, n);
  }

  lemma AlertMetric(o: Boards.Observability, places: seq<Place>, a: Boards.Alert)
    requires Boards.BoardsOk(o, places) && a in o.alerts
    ensures Boards.FindMetric(o.metrics, a.metric).Some?
  {
  }

  lemma AlarmUnfold(o: Boards.Observability, places: seq<Place>, vs: seq<Boards.View>, a: Boards.Alert, n: nat)
    requires n <= |vs| <= U64_MAX
    ensures BoardMeanings.AlarmOn(o, places, vs, a, n)
      <==> n > 0 && BoardRuns.Reading(o, places, vs, a.metric, n).Value? && BoardMeanings.Alarming(a.test, BoardRuns.Reading(o, places, vs, a.metric, n).value)
  {
    hide Boards.Measure, Boards.FindMetric;
  }

  lemma SoundsUnfold(s: Scene, ask: Agents.Backend, a: Boards.Alert, n: nat)
    requires n <= U64_MAX
    ensures var m := Boards.MetricOf(WorldAt(s, ask, n).boards, a.metric);
      SoundsAfter(s, ask, a, n) <==> n > 0 && m.Value? && BoardMeanings.Alarming(a.test, m.value)
  {
    hide WorldAt;
  }

  /** After tick n an alert fires exactly if its metric is within its test, and since the tick on which that spell began. */
  lemma SceneAlerts(s: Scene, ask: Agents.Backend, n: nat, i: nat)
    requires Runnable(s) && n <= U64_MAX && i < |BoardsOf(s).alerts|
    ensures var a := BoardsOf(s).alerts[i]; var st := Boards.AlertOf(WorldAt(s, ask, n).boards, a.id);
      && (st.Firing? <==> SoundsAfter(s, ask, a, n))
      && (st.Firing? ==> 1 <= st.since <= n && (forall t :: st.since <= t <= n ==> SoundsAfter(s, ask, a, t)) && !SoundsAfter(s, ask, a, st.since - 1))
  {
    hide *;
    var a := BoardsOf(s).alerts[i];
    RunnableIs(s);
    SceneParts(s);
    BoardsRun(s, ask, n, n);
    BoardMeanings.AlertMeans(BoardsOf(s), s.places, Views(s, ask, n), n, i);
    forall t: nat | t <= n ensures BoardMeanings.AlarmOn(BoardsOf(s), s.places, Views(s, ask, n), a, t) <==> SoundsAfter(s, ask, a, t) {
      AlarmIs(s, ask, n, a, t);
    }
  }

  // ---- Pressures and milestones ----

  /** After tick n a pressure is active exactly from its first tick until `duration` ticks later. */
  lemma SceneActive(s: Scene, ask: Agents.Backend, n: nat, p: Pressure)
    requires Runnable(s) && 0 < n <= U64_MAX && p in s.pressure
    ensures p.id in WorldAt(s, ask, n).pressure.active <==> p.atTick <= n < p.atTick + p.duration
  {
    hide *;
    RunnableIs(s);
    SceneParts(s);
    PressureRuns(s, ask, n);
    PressureClosedForm(s.pressure, n);
    WindowIs(s.pressure, PressureAt(s.pressure, n).active, p, n);
  }

  lemma WindowIs(ps: seq<Pressure>, active: map<Id, u64>, p: Pressure, n: u64)
    requires PressuresOk(ps) && ActiveExactly(ps, active, n) && p in ps
    ensures p.id in active <==> p.atTick <= n < p.atTick + p.duration
  {
    assert PressureOk(p);
  }

  /** What a milestone waits for, seen in the state after a tick. */
  ghost predicate Triggered(w: World, t: Milestones.Trigger) {
    match t
    case PressureActivated(p) => p in w.pressure.active
    case PressureDeactivated(p) => p !in w.pressure.active
    case MetricThreshold(metric, cmp, target) =>
      var m := Boards.MetricOf(w.boards, metric);
      m.Value? && (match cmp case Gte => m.value >= target case Lte => m.value <= target case Above => m.value > target case Below => m.value < target)
    case DashboardShows(d, shown) =>
      d in w.boards.dashboards
      && match w.boards.dashboards[d] case Fresh => shown == "ok" case Lagging(_) => shown == "stale" case Missing => shown == "no_data"
  }

  /** Tick k qualifies: it triggers, and a deactivation follows an earlier activity. */
  ghost predicate FiresOn(s: Scene, ask: Agents.Backend, t: Milestones.Trigger, k: nat)
    requires k <= U64_MAX
  {
    && 1 <= k && Triggered(WorldAt(s, ask, k), t)
    && (t.PressureDeactivated? ==> exists j :: 1 <= j < k && t.pressure in WorldAt(s, ask, j).pressure.active)
  }

  lemma TriggerMeans(w: World, t: Milestones.Trigger)
    ensures Milestones.Satisfied(t, SeenOf(w.pressure, w.boards)) <==> Triggered(w, t)
  {
  }

  lemma FiresIs(s: Scene, ask: Agents.Backend, t: Milestones.Trigger, n: nat, k: nat)
    requires k <= n <= U64_MAX
    ensures Milestones.Qualifies(t, Seens(s, ask, n), k) <==> FiresOn(s, ask, t, k)
  {
    if k > 0 {
      InputsAt(s, ask, n, k);
      InputsAre(s, ask, k);
      TriggerMeans(WorldAt(s, ask, k), t);
    }
    forall j | 1 <= j <= k ensures t.PressureDeactivated? ==> (Milestones.ActiveOn(Seens(s, ask, n), t.pressure, j) <==> t.pressure in WorldAt(s, ask, j).pressure.active) {
      InputsAt(s, ask, n, j);
      InputsAre(s, ask, j);
    }
    hide WorldAt, SeenAt, Seens, Triggered, Milestones.Satisfied;
  }

  /** On every run a milestone has fired, and is logged once, on the first tick that qualifies, and not at all if none has. */
  lemma SceneFires(s: Scene, ask: Agents.Backend, n: nat, i: nat)
    requires Runnable(s) && n <= U64_MAX && i < |s.milestones|
    ensures var m := s.milestones[i]; var fired := Milestones.StateOf(WorldAt(s, ask, n).milestones, m.id).firedAt;
      && (fired.None? ==> forall k :: 0 <= k <= n ==> !FiresOn(s, ask, m.trigger, k))
      && (fired.Some? ==> fired.value <= n && FiresOn(s, ask, m.trigger, fired.value) && forall k :: 0 <= k < fired.value ==> !FiresOn(s, ask, m.trigger, k))
      && Milestones.LogOf(WorldAt(s, ask, n).milestones.events, m.id) == if fired.Some? then [Milestones.Fired(m.id, fired.value)] else []
  {
    hide *;
    var m := s.milestones[i];
    var first := Milestones.FirstQualifying(m.trigger, Seens(s, ask, n), n);
    RunnableIs(s);
    SceneParts(s);
    MilestonesRun(s, ask, n, n);
    Milestones.FiresOnceFirst(s.milestones, Seens(s, ask, n), n, i);
    forall k: nat | k <= n ensures Milestones.Qualifies(m.trigger, Seens(s, ask, n), k) <==> FiresOn(s, ask, m.trigger, k) { FiresIs(s, ask, m.trigger, n, k); }
    LogIs(m.id, first);
  }

  lemma LogIs(id: Id, fired: Option<u64>)
    ensures Milestones.LogFor(id, fired) == if fired.Some? then [Milestones.Fired(id, fired.value)] else []
  {
  }

  // ---- Transforms and agents ----

  /**
   * A transform that retries fails an instance opened on tick t exactly on tick t + deadline + max_attempts, naming its
   * last attempt; one that drops fails it on t + deadline + 1.
   */
  lemma SceneFailures(s: Scene, ask: Agents.Backend, n: nat, i: nat, e: Plants.Logged)
    requires SceneOk(s) && n < U64_MAX && i < |s.transforms|
    requires e in WorldAt(s, ask, n).plant.history && e.def.id == s.transforms[i].id && TransformLife.Warns(e.move, Plants.FailedWarning)
    ensures var def := s.transforms[i]; var start := e.tick - def.deadline - Turns.Patience(def);
      && 1 <= start <= e.tick <= n && Turns.Names(e.move, Plants.FailedWarning, Turns.Patience(def))
      && Turns.OpenSince(def, Plants.StateOf(WorldAt(s, ask, start).plant, def.id), start)
  {
    hide *;
    SceneParts(s);
    PlantsRun(s, ask, n, n);
    Turns.FailuresExact(LayoutOf(s), Weathers(s, n), n, i, e);
    FailedSince(LayoutOf(s), Weathers(s, n), i, e);
    PlantsRun(s, ask, e.tick - s.transforms[i].deadline - Turns.Patience(s.transforms[i]), n);
  }

  lemma FailedSince(lay: Plants.Layout, ws: seq<Plants.Weather>, i: nat, e: Plants.Logged)
    requires |ws| <= U64_MAX && i < |lay.ts| && e.tick <= |ws| && Turns.FailsInTurn(lay, ws, i, e)
    ensures var def := lay.ts[i]; var start := e.tick - def.deadline - Turns.Patience(def);
      && 1 <= start <= e.tick && Turns.Names(e.move, Plants.FailedWarning, Turns.Patience(def))
      && Turns.OpenSince(def, Plants.StateOf(PlantRuns.PlantAt(lay, ws, start), def.id), start)
  {
    hide PlantRuns.PlantAt, Turns.OpenSince;
  }

  /** The log of an agent is what it says on its own ticks, and it pauses what its applied throttles reach. */
  lemma SceneAgents(s: Scene, ask: Agents.Backend, n: nat, i: nat)
    requires SceneOk(s) && n < U64_MAX && i < |s.agents|
    ensures var a := s.agents[i];
      AgentRuns.LogOf(WorldAt(s, ask, n).agents.events, a.id) == AgentRuns.AgentTrail(a, DemandEngine.DemandIds(s.demand), ask, n)
  {
    hide *;
    SceneParts(s);
    AgentsRun(s, ask, n);
    AgentRuns.AgentHistory(s.agents, DemandEngine.DemandIds(s.demand), ask, n, i);
  }
}
