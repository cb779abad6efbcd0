/** The loader as the engine runs it: each section in one pass, against the function that says what is accepted. */
module LoaderEngine {
  import opened Base
  import opened Order
  import opened Sl1Scene
  import opened Loading
  import opened Loader
  import Goals
  import Boards
  import Agents
  import Milestones
  import opened Sl1State

  method LoadSection<R, T(!new)>(raws: seq<R>, check: R -> Option<T>, key: T -> string) returns (r: Option<seq<T>>)
    ensures r == Section(raws, check, key)
  {
    if |raws| > MAX_ITEMS { return None; }
    r := Load(raws, check, key);
  }

  method LoadBoardSection<R, T(!new)>(raws: seq<R>, check: R -> Option<T>, key: T -> string) returns (r: Option<seq<T>>)
    ensures r == BoardSection(raws, check, key)
  {
    if |raws| > MAX_BOARD_ITEMS { return None; }
    r := Load(raws, check, key);
  }

  method LoadWorld(r: RawScene) returns (w: Option<(seq<Thing>, seq<Place>, seq<Link>)>)
    ensures w == CheckWorld(r)
  {
    hide Section;
    var things := LoadSection(r.things, CheckThing, ThingKey);
    if things.None? { return None; }
    var places := LoadSection(r.places, PlaceCheck(things.value), PlaceKey);
    if places.None? { return None; }
    var links := LoadSection(r.links, LinkCheck(things.value, places.value), LinkKey);
    if links.None? { return None; }
    return Some((things.value, places.value, links.value));
  }

  method LoadWork(r: RawScene, things: seq<Thing>, places: seq<Place>, links: seq<Link>)
    returns (w: Option<(seq<Transform>, seq<Demand>, seq<Pressure>)>)
    ensures w == CheckWork(r, things, places, links)
  {
    hide Section;
    var transforms := LoadSection(r.transforms, TransformCheck(things, places), TransformKey);
    if transforms.None? { return None; }
    var demand := LoadSection(r.demand, DemandCheck(things, places), DemandKey);
    if demand.None? { return None; }
    var pressure := LoadSection(r.pressure, PressureCheck(things, places, demand.value, links), PressureKey);
    if pressure.None? { return None; }
    return Some((transforms.value, demand.value, pressure.value));
  }

  method LoadRules(r: RawScene, things: seq<Thing>, places: seq<Place>, transforms: seq<Transform>, demand: seq<Demand>)
    returns (rules: Option<Goals.Rules>)
    ensures rules == CheckRules(r, things, places, transforms, demand)
  {
    hide Section;
    var objectives := LoadSection(r.objectives, ObjectiveCheck(things, places, transforms, demand), Goals.ObjectiveKey);
    if objectives.None? { return None; }
    var failures := LoadSection(r.failures, FailureCheck(things, places, objectives.value), Goals.FailureKey);
    if failures.None? { return None; }
    var victories := LoadSection(r.victories, CheckVictory, Goals.VictoryKey);
    if victories.None? { return None; }
    return Some(Goals.Rules(places, objectives.value, failures.value, victories.value));
  }

  method LoadObservability(r: RawObservability, things: seq<Thing>, places: seq<Place>) returns (o: Option<Boards.Observability>)
    ensures o == CheckObservability(things, places, r)
  {
    hide BoardSection;
    var dashboards := LoadBoardSection(r.dashboards, DashboardCheck(things), Boards.DashboardKey);
    if dashboards.None? { return None; }
    var metrics := LoadBoardSection(r.metrics, MetricCheck(things, places, dashboards.value), Boards.MetricKey);
    if metrics.None? { return None; }
    var alerts := LoadBoardSection(r.alerts, AlertCheck(metrics.value), Boards.AlertKey);
    if alerts.None? { return None; }
    return Some(Boards.Observability(metrics.value, dashboards.value, alerts.value));
  }

  method LoadCast(r: RawScene, c: Catalog) returns (cast: Option<(seq<Agents.Agent>, seq<Milestones.Milestone>)>)
    ensures cast == CheckCast(r, c)
  {
    hide Section;
    var agents := LoadSection(r.agents, AgentCheck(c), Agents.AgentKey);
    if agents.None? { return None; }
    var milestones := LoadSection(r.milestones, MilestoneCheck(c, agents.value), Milestones.MilestoneKey);
    if milestones.None? { return None; }
    return Some((agents.value, milestones.value));
  }

  method ValidateScene(r: RawScene) returns (s: Option<Scene>)
    ensures s == Validate(r)
  {
    hide CheckWorld, CheckWork, CheckRules, CheckObservability, CheckCast;
    if r.schemaVersion != SL1_SCHEMA_VERSION || r.extra != {} { return None; }
    var world := LoadWorld(r);
    if world.None? { return None; }
    var (things, places, links) := world.value;
    var work := LoadWork(r, things, places, links);
    if work.None? { return None; }
    var (transforms, demand, pressure) := work.value;
    var rules := LoadRules(r, things, places, transforms, demand);
    if rules.None? { return None; }
    var boards: Option<Boards.Observability> := None;
    if r.observability.Some? {
      boards := LoadObservability(r.observability.value, things, places);
      if boards.None? { return None; }
    }
    var c := Catalog(things, places, links, transforms, demand, pressure, rules.value.objectives, rules.value.failures, ShownBoards(boards));
    var cast := LoadCast(r, c);
    if cast.None? { return None; }
    return Some(Scene(things, places, links, transforms, demand, pressure, rules.value.objectives, rules.value.failures, rules.value.victories,
                      boards, cast.value.0, cast.value.1));
  }
}
