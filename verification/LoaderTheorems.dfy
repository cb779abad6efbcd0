/** What an accepted scene is: the same whatever the order of declaration, and everything its run relies on. */
module LoaderTheorems {
  import opened Base
  import opened Text
  import opened Order
  import opened Sl1Scene
  import opened Loading
  import opened Loader
  import Pressures
  import Plants
  import PlantRuns
  import PlantKeys
  import Reservations
  import Demands
  import Goals
  import Boards
  import Agents
  import Milestones
  import opened Sl1State
  import SceneTheorems
  import Sl1Runs
  import TickEngine

  // ---- The order of declaration ----

  predicate SameLists(a: RawObservability, b: RawObservability) {
    multiset(a.metrics) == multiset(b.metrics) && multiset(a.dashboards) == multiset(b.dashboards) && multiset(a.alerts) == multiset(b.alerts)
  }

  /** The same entries in every section, in any order. */
  predicate SameDeclarations(a: RawScene, b: RawScene) {
    a.schemaVersion == b.schemaVersion && a.extra == b.extra
    && SameWorld(a, b) && SameWork(a, b) && SameRules(a, b) && SameObserved(a, b) && SameCast(a, b)
  }

  lemma WorldAnyOrder(a: RawScene, b: RawScene)
    requires SameWorld(a, b)
    ensures CheckWorld(a) == CheckWorld(b)
  {
    hide Section;
    SectionAnyOrder(a.things, b.things, CheckThing, ThingKey);
    forall things { SectionAnyOrder(a.places, b.places, PlaceCheck(things), PlaceKey); }
    forall things, places { SectionAnyOrder(a.links, b.links, LinkCheck(things, places), LinkKey); }
  }

  lemma WorkAnyOrder(a: RawScene, b: RawScene, things: seq<Thing>, places: seq<Place>, links: seq<Link>)
    requires SameWork(a, b)
    ensures CheckWork(a, things, places, links) == CheckWork(b, things, places, links)
  {
    hide Section;
    SectionAnyOrder(a.transforms, b.transforms, TransformCheck(things, places), TransformKey);
    SectionAnyOrder(a.demand, b.demand, DemandCheck(things, places), DemandKey);
    forall demand { SectionAnyOrder(a.pressure, b.pressure, PressureCheck(things, places, demand, links), PressureKey); }
  }

  lemma RulesAnyOrder(a: RawScene, b: RawScene, things: seq<Thing>, places: seq<Place>, transforms: seq<Transform>, demand: seq<Demand>)
    requires SameRules(a, b)
    ensures CheckRules(a, things, places, transforms, demand) == CheckRules(b, things, places, transforms, demand)
  {
    hide Section;
    SectionAnyOrder(a.objectives, b.objectives, ObjectiveCheck(things, places, transforms, demand), Goals.ObjectiveKey);
    forall objectives { SectionAnyOrder(a.failures, b.failures, FailureCheck(things, places, objectives), Goals.FailureKey); }
    SectionAnyOrder(a.victories, b.victories, CheckVictory, Goals.VictoryKey);
  }

  lemma BoardSectionAnyOrder<R, T(!new)>(a: seq<R>, b: seq<R>, check: R -> Option<T>, key: T -> string)
    requires multiset(a) == multiset(b)
    ensures BoardSection(a, check, key) == BoardSection(b, check, key)
  {
    SameMembers(a, b);
    ListedAnyOrder(a, b, check, key);
  }

  lemma BoardsAnyOrder(a: RawObservability, b: RawObservability, things: seq<Thing>, places: seq<Place>)
    requires SameLists(a, b)
    ensures CheckObservability(things, places, a) == CheckObservability(things, places, b)
  {
    hide BoardSection;
    BoardSectionAnyOrder(a.dashboards, b.dashboards, DashboardCheck(things), Boards.DashboardKey);
    forall dashboards { BoardSectionAnyOrder(a.metrics, b.metrics, MetricCheck(things, places, dashboards), Boards.MetricKey); }
    forall metrics { BoardSectionAnyOrder(a.alerts, b.alerts, AlertCheck(metrics), Boards.AlertKey); }
  }

  lemma CastAnyOrder(a: RawScene, b: RawScene, c: Catalog)
    requires SameCast(a, b)
    ensures CheckCast(a, c) == CheckCast(b, c)
  {
    hide Section;
    SectionAnyOrder(a.agents, b.agents, AgentCheck(c), Agents.AgentKey);
    forall agents { SectionAnyOrder(a.milestones, b.milestones, MilestoneCheck(c, agents), Milestones.MilestoneKey); }
  }

  predicate SameObserved(a: RawScene, b: RawScene) {
    match (a.observability, b.observability)
    case (None, None) => true
    case (Some(x), Some(y)) => SameLists(x, y)
    case _ => false
  }

  lemma ObservedAnyOrder(a: RawScene, b: RawScene, things: seq<Thing>, places: seq<Place>)
    requires SameObserved(a, b)
    ensures CheckBoards(a, things, places) == CheckBoards(b, things, places)
  {
    if a.observability.Some? { BoardsAnyOrder(a.observability.value, b.observability.value, things, places); }
    hide CheckObservability;
  }

  predicate SameRules(a: RawScene, b: RawScene) {
    multiset(a.objectives) == multiset(b.objectives) && multiset(a.failures) == multiset(b.failures) && multiset(a.victories) == multiset(b.victories)
  }

  predicate SameCast(a: RawScene, b: RawScene) { multiset(a.agents) == multiset(b.agents) && multiset(a.milestones) == multiset(b.milestones) }

  predicate SameWork(a: RawScene, b: RawScene) {
    multiset(a.transforms) == multiset(b.transforms) && multiset(a.demand) == multiset(b.demand) && multiset(a.pressure) == multiset(b.pressure)
  }

  predicate SameWorld(a: RawScene, b: RawScene) {
    multiset(a.things) == multiset(b.things) && multiset(a.places) == multiset(b.places) && multiset(a.links) == multiset(b.links)
  }

  lemma FinishAnyOrder(
    a: RawScene, b: RawScene, things: seq<Thing>, places: seq<Place>, links: seq<Link>, transforms: seq<Transform>, demand: seq<Demand>, pressure: seq<Pressure>)
    requires SameRules(a, b) && SameObserved(a, b) && SameCast(a, b)
    ensures FinishScene(a, things, places, links, transforms, demand, pressure) == FinishScene(b, things, places, links, transforms, demand, pressure)
  {
    RulesAnyOrder(a, b, things, places, transforms, demand);
    ObservedAnyOrder(a, b, things, places);
    forall c { CastAnyOrder(a, b, c); }
    hide CheckRules, CheckBoards, CheckCast, SameObserved;
  }

  lemma FillAnyOrder(a: RawScene, b: RawScene, things: seq<Thing>, places: seq<Place>, links: seq<Link>)
    requires SameWork(a, b) && SameRules(a, b) && SameObserved(a, b) && SameCast(a, b)
    ensures FillWorld(a, things, places, links) == FillWorld(b, things, places, links)
  {
    WorkAnyOrder(a, b, things, places, links);
    hide CheckWork, FinishScene, SameRules, SameObserved, SameCast;
    if CheckWork(a, things, places, links).Some? {
      var work := CheckWork(a, things, places, links).value;
      FinishAnyOrder(a, b, things, places, links, work.0, work.1, work.2);
    }
  }

  /** Permuting any section list, or any list of the observability block, changes neither acceptance nor the scene. */
  lemma OrderIndependent(a: RawScene, b: RawScene)
    requires SameDeclarations(a, b)
    ensures Validate(a) == Validate(b)
  {
    WorldAnyOrder(a, b);
    hide CheckWorld, FillWorld, SameWork, SameRules, SameObserved, SameCast;
    if CheckWorld(a).Some? {
      var world := CheckWorld(a).value;
      FillAnyOrder(a, b, world.0, world.1, world.2);
    }
  }

  // ---- What is accepted ----

  lemma SectionIs<R, T(!new)>(raws: seq<R>, check: R -> Option<T>, key: T -> string)
    requires Section(raws, check, key).Some?
    ensures var items := Section(raws, check, key).value;
      && |items| <= MAX_ITEMS && SortedBy(items, key)
      && forall x :: x in items ==> exists r :: r in raws && check(r) == Some(x)
  {
    ListedIs(raws, check, key);
  }

  lemma NamesDiffer(items: seq<Item>)
    requires SortedBy(items, ItemKey)
    ensures forall i, j :: 0 <= i < j < |items| ==> items[i].name != items[j].name
  {
    forall i, j | 0 <= i < j < |items| ensures items[i].name != items[j].name {
      assert Less(ItemKey(items[i]), ItemKey(items[j]));
      LessAsymmetric(items[i].name, items[i].name);
    }
  }

  lemma ItemsAccepted(things: seq<Thing>, raws: seq<Item>)
    requires Listed(raws, ItemCheck(things), ItemKey).Some?
    ensures var items := Listed(raws, ItemCheck(things), ItemKey).value;
      ItemsOk(items) && forall i :: 0 <= i < |items| ==> HasThing(things, items[i].name)
  {
    ListedIs(raws, ItemCheck(things), ItemKey);
    var items := Listed(raws, ItemCheck(things), ItemKey).value;
    NamesDiffer(items);
    forall i | 0 <= i < |items| ensures 1 <= items[i].amount <= MAX_AMOUNT && HasThing(things, items[i].name) {
      assert items[i] in items;
      var r :| r in raws && ItemCheck(things)(r) == Some(items[i]);
    }
  }

  /** What a place stores is a thing, what it takes and gives is a thing or a tag, and its states look at its own buckets. */
  predicate PlaceResolves(things: seq<Thing>, p: Place) {
    && (forall k :: k in p.storage ==> HasThing(things, k))
    && (forall i :: 0 <= i < |p.accepts| ==> Names(things, p.accepts[i]))
    && (forall i :: 0 <= i < |p.produces| ==> Names(things, p.produces[i]))
    && (forall k :: k in p.states && p.states[k].UsedPercentGte? ==> p.states[k].bucket in p.capacity)
  }

  /** A link joins two declared places and carries declared things or tags. */
  predicate LinkResolves(things: seq<Thing>, places: seq<Place>, l: Link) {
    && Has(places, PlaceKey, l.from) && Has(places, PlaceKey, l.to) && l.from != l.to
    && (forall i :: 0 <= i < |l.compatibility| ==> Names(things, l.compatibility[i]))
  }

  lemma LinkAccepted(things: seq<Thing>, places: seq<Place>, r: RawLink)
    requires CheckLink(things, places, r).Some?
    ensures LinkResolves(things, places, CheckLink(things, places, r).value)
  {
    hide Listed, ValidId, NoneBlank, Blank, Names, Has;
  }

  /** A transform runs at a declared place, moves declared things, and costs buckets that place has. */
  predicate TransformResolves(things: seq<Thing>, places: seq<Place>, t: Transform) {
    && (forall i :: 0 <= i < |t.inputs| ==> HasThing(things, t.inputs[i].name))
    && (forall i :: 0 <= i < |t.outputs| ==> HasThing(things, t.outputs[i].name))
    && var p := Goals.FindPlace(places, t.runsOn); p.Some? && forall i :: 0 <= i < |t.cost| ==> t.cost[i].name in p.value.capacity
  }

  lemma TransformAccepted(things: seq<Thing>, places: seq<Place>, r: RawTransform)
    requires CheckTransform(things, places, r).Some?
    ensures var t := CheckTransform(things, places, r).value; TransformOk(t) && TransformResolves(things, places, t)
  {
    hide Listed, ValidId, NoneBlank, Blank, SortedBy, HasThing;
    ItemsAccepted(things, r.inputs);
    ItemsAccepted(things, r.outputs);
    NamesDiffer(r.cost);
  }

  lemma TransformsAccepted(things: seq<Thing>, places: seq<Place>, raws: seq<RawTransform>)
    requires Section(raws, TransformCheck(things, places), TransformKey).Some?
    ensures var ts := Section(raws, TransformCheck(things, places), TransformKey).value;
      TransformsOk(ts) && forall t :: t in ts ==> TransformResolves(things, places, t)
  {
    SectionIs(raws, TransformCheck(things, places), TransformKey);
    var ts := Section(raws, TransformCheck(things, places), TransformKey).value;
    hide Section, TransformOk, TransformResolves, CheckTransform, SortedBy;
    forall t | t in ts ensures TransformOk(t) && TransformResolves(things, places, t) {
      var r :| r in raws && TransformCheck(things, places)(r) == Some(t);
      TransformAccepted(things, places, r);
    }
  }

  // ---- Demand ----

  lemma {:induction false} Increasing(ticks: seq<u64>, i: nat, j: nat)
    requires i < j < |ticks| && forall k :: 0 < k < |ticks| ==> ticks[k - 1] < ticks[k]
    ensures ticks[i] < ticks[j]
  {
    if i + 1 < j { Increasing(ticks, i, j - 1); }
    assert ticks[j - 1] < ticks[j];
  }

  predicate DemandResolves(things: seq<Thing>, places: seq<Place>, d: Demand) {
    Has(places, PlaceKey, d.place) && forall i :: 0 <= i < |d.needs| ==> HasThing(things, d.needs[i])
  }

  lemma ScheduleAccepted(r: RawSchedule)
    requires CheckSchedule(r).Some?
    ensures Demands.ScheduleOk(CheckSchedule(r).value)
  {
    if r.kind.ScriptedKind? {
      var ticks := r.ticks.value;
      forall i, j | 0 <= i < j < |ticks| ensures ticks[i] < ticks[j] { Increasing(ticks, i, j); }
    }
  }

  lemma NeedsAccepted(things: seq<Thing>, raws: seq<Id>)
    requires Listed(raws, ThingRef(things), Self).Some?
    ensures var needs := Listed(raws, ThingRef(things), Self).value;
      |needs| == |raws| && forall i :: 0 <= i < |needs| ==> HasThing(things, needs[i])
  {
    ListedIs(raws, ThingRef(things), Self);
    var needs := Listed(raws, ThingRef(things), Self).value;
    hide Listed, HasThing;
    forall i | 0 <= i < |needs| ensures HasThing(things, needs[i]) {
      assert needs[i] in needs;
      var n :| n in raws && ThingRef(things)(n) == Some(needs[i]);
    }
  }

  lemma DemandAccepted(things: seq<Thing>, places: seq<Place>, r: RawDemand)
    requires CheckDemand(things, places, r).Some?
    ensures var d := CheckDemand(things, places, r).value;
      Demands.ScheduleOk(d.schedule) && d.needs != [] && DemandResolves(things, places, d)
  {
    hide Listed, ValidId, NoneBlank, Blank, Has, HasThing, CheckSchedule, Demands.ScheduleOk, ThingRef;
    NeedsAccepted(things, r.needs);
    ScheduleAccepted(r.schedule);
  }

  lemma DemandsAccepted(things: seq<Thing>, places: seq<Place>, raws: seq<RawDemand>)
    requires Section(raws, DemandCheck(things, places), DemandKey).Some?
    ensures var ds := Section(raws, DemandCheck(things, places), DemandKey).value;
      && SortedBy(ds, DemandKey) && (forall d :: d in ds ==> Demands.ScheduleOk(d.schedule) && d.needs != [])
      && (forall d :: d in ds ==> DemandResolves(things, places, d))
  {
    SectionIs(raws, DemandCheck(things, places), DemandKey);
    var ds := Section(raws, DemandCheck(things, places), DemandKey).value;
    hide Section, CheckDemand, SortedBy, Demands.ScheduleOk, DemandResolves;
    forall d | d in ds ensures Demands.ScheduleOk(d.schedule) && d.needs != [] && DemandResolves(things, places, d) {
      var r :| r in raws && DemandCheck(things, places)(r) == Some(d);
      DemandAccepted(things, places, r);
    }
  }

  // ---- Pressure ----

  /** A source pours into a storage slot, a growth names a demand, a quota a bucket, an outage a link; the rest a thing or a place. */
  predicate PressureResolves(things: seq<Thing>, places: seq<Place>, demand: seq<Demand>, links: seq<Link>, p: Pressure) {
    var place := Goals.FindPlace(places, p.target);
    match p.params
    case SourceMultiplier(thing, _) => place.Some? && thing in place.value.storage
    case DemandGrowth(_) => Has(demand, DemandKey, p.target)
    case QuotaReduction(bucket, _) => place.Some? && bucket in place.value.capacity
    case PathOutage => Has(links, LinkKey, p.target)
    case UnsupportedPressure(onThing) => if onThing then HasThing(things, p.target) else place.Some?
  }

  lemma PressureAccepted(things: seq<Thing>, places: seq<Place>, demand: seq<Demand>, links: seq<Link>, r: RawPressure)
    requires CheckPressure(things, places, demand, links, r).Some?
    ensures var p := CheckPressure(things, places, demand, links, r).value;
      Pressures.PressureOk(p) && PressureResolves(things, places, demand, links, p)
  {
    hide ValidId, Blank, Has, HasThing, Goals.FindPlace;
  }

  lemma PressuresAccepted(things: seq<Thing>, places: seq<Place>, demand: seq<Demand>, links: seq<Link>, raws: seq<RawPressure>)
    requires Section(raws, PressureCheck(things, places, demand, links), PressureKey).Some?
    ensures var ps := Section(raws, PressureCheck(things, places, demand, links), PressureKey).value;
      Pressures.PressuresOk(ps) && forall p :: p in ps ==> PressureResolves(things, places, demand, links, p)
  {
    SectionIs(raws, PressureCheck(things, places, demand, links), PressureKey);
    var ps := Section(raws, PressureCheck(things, places, demand, links), PressureKey).value;
    hide Section, SortedBy, CheckPressure, Pressures.PressureOk, PressureResolves;
    forall p | p in ps ensures Pressures.PressureOk(p) && PressureResolves(things, places, demand, links, p) {
      var r :| r in raws && PressureCheck(things, places, demand, links)(r) == Some(p);
      PressureAccepted(things, places, demand, links, r);
    }
  }

  // ---- Rules ----

  predicate ObjectiveResolves(places: seq<Place>, demand: seq<Demand>, o: Goals.Objective) {
    match o.params
    case KeepFresh(place, thing, _) => Goals.FindPlace(places, place).Some? && thing in Goals.FindPlace(places, place).value.storage
    case CompleteJobs(d, _) => Has(demand, DemandKey, d)
    case MaintainUtilization(place, bucket, _, _) => Goals.FindPlace(places, place).Some? && bucket in Goals.FindPlace(places, place).value.capacity
    case UnsupportedObjective => true
  }

  predicate FailureResolves(places: seq<Place>, objectives: seq<Goals.Objective>, f: Goals.Failure) {
    match f.params
    case StaleTarget(place, thing, _, _) => Goals.FindPlace(places, place).Some? && thing in Goals.FindPlace(places, place).value.storage
    case PlaceState(place, state, _) =>
      Goals.FindPlace(places, place).Some? && state in Goals.FindPlace(places, place).value.states
      && Goals.FindPlace(places, place).value.states[state].UsedPercentGte?
    case BreachCount(o, _) => Has(objectives, Goals.ObjectiveKey, o)
  }

  predicate RulesResolve(places: seq<Place>, demand: seq<Demand>, rules: Goals.Rules) {
    && (forall o :: o in rules.objectives ==> ObjectiveResolves(places, demand, o))
    && (forall f :: f in rules.failures ==> FailureResolves(places, rules.objectives, f))
  }

  lemma ObjectiveAccepted(things: seq<Thing>, places: seq<Place>, transforms: seq<Transform>, demand: seq<Demand>, r: RawObjective)
    requires CheckObjective(things, places, transforms, demand, r).Some?
    ensures ObjectiveResolves(places, demand, CheckObjective(things, places, transforms, demand, r).value)
  {
    hide ValidId, Has, HasThing, Declared, Goals.FindPlace;
  }

  lemma FailureAccepted(things: seq<Thing>, places: seq<Place>, objectives: seq<Goals.Objective>, r: RawFailure)
    requires CheckFailure(things, places, objectives, r).Some?
    ensures FailureResolves(places, objectives, CheckFailure(things, places, objectives, r).value)
  {
    hide ValidId, Has, HasThing, Goals.FindPlace;
  }

  lemma ObjectivesAccepted(things: seq<Thing>, places: seq<Place>, transforms: seq<Transform>, demand: seq<Demand>, raws: seq<RawObjective>)
    requires Section(raws, ObjectiveCheck(things, places, transforms, demand), Goals.ObjectiveKey).Some?
    ensures var os := Section(raws, ObjectiveCheck(things, places, transforms, demand), Goals.ObjectiveKey).value;
      SortedBy(os, Goals.ObjectiveKey) && forall o :: o in os ==> ObjectiveResolves(places, demand, o)
  {
    SectionIs(raws, ObjectiveCheck(things, places, transforms, demand), Goals.ObjectiveKey);
    var os := Section(raws, ObjectiveCheck(things, places, transforms, demand), Goals.ObjectiveKey).value;
    hide Section, SortedBy, CheckObjective, ObjectiveResolves;
    forall o | o in os ensures ObjectiveResolves(places, demand, o) {
      var raw :| raw in raws && ObjectiveCheck(things, places, transforms, demand)(raw) == Some(o);
      ObjectiveAccepted(things, places, transforms, demand, raw);
    }
  }

  lemma FailuresAccepted(things: seq<Thing>, places: seq<Place>, objectives: seq<Goals.Objective>, raws: seq<RawFailure>)
    requires Section(raws, FailureCheck(things, places, objectives), Goals.FailureKey).Some?
    ensures var fs := Section(raws, FailureCheck(things, places, objectives), Goals.FailureKey).value;
      SortedBy(fs, Goals.FailureKey) && forall f :: f in fs ==> FailureResolves(places, objectives, f)
  {
    SectionIs(raws, FailureCheck(things, places, objectives), Goals.FailureKey);
    var fs := Section(raws, FailureCheck(things, places, objectives), Goals.FailureKey).value;
    hide Section, SortedBy, CheckFailure, FailureResolves;
    forall f | f in fs ensures FailureResolves(places, objectives, f) {
      var raw :| raw in raws && FailureCheck(things, places, objectives)(raw) == Some(f);
      FailureAccepted(things, places, objectives, raw);
    }
  }

  lemma VictoriesAccepted(raws: seq<RawVictory>)
    requires Section(raws, CheckVictory, Goals.VictoryKey).Some?
    ensures var vs := Section(raws, CheckVictory, Goals.VictoryKey).value;
      SortedBy(vs, Goals.VictoryKey) && forall i :: 0 <= i < |vs| ==> vs[i].atTick >= 1
  {
    SectionIs(raws, CheckVictory, Goals.VictoryKey);
    var vs := Section(raws, CheckVictory, Goals.VictoryKey).value;
    hide Section, SortedBy, ValidId;
    forall i | 0 <= i < |vs| ensures vs[i].atTick >= 1 {
      assert vs[i] in vs;
      var raw :| raw in raws && CheckVictory(raw) == Some(vs[i]);
    }
  }

  lemma RulesAccepted(r: RawScene, things: seq<Thing>, places: seq<Place>, transforms: seq<Transform>, demand: seq<Demand>)
    requires CheckRules(r, things, places, transforms, demand).Some?
    ensures var rules := CheckRules(r, things, places, transforms, demand).value;
      rules.places == places && Goals.RulesOk(rules) && RulesResolve(places, demand, rules)
  {
    hide Section, SortedBy, ObjectiveResolves, FailureResolves, ObjectiveCheck, FailureCheck;
    var rules := CheckRules(r, things, places, transforms, demand).value;
    ObjectivesAccepted(things, places, transforms, demand, r.objectives);
    FailuresAccepted(things, places, rules.objectives, r.failures);
    VictoriesAccepted(r.victories);
  }

  // ---- Observability, agents, milestones ----

  lemma BoardSectionIs<R, T(!new)>(raws: seq<R>, check: R -> Option<T>, key: T -> string)
    requires BoardSection(raws, check, key).Some?
    ensures var items := BoardSection(raws, check, key).value;
      SortedBy(items, key) && forall x :: x in items ==> exists r :: r in raws && check(r) == Some(x)
  {
    ListedIs(raws, check, key);
  }

  predicate DashboardResolves(things: seq<Thing>, d: Boards.Dashboard) {
    forall i :: 0 <= i < |d.dependsOn| ==> HasThing(things, d.dependsOn[i])
  }

  /** A metric reads a bucket or a storage slot of a declared place, or a declared dashboard. */
  predicate MetricResolves(things: seq<Thing>, places: seq<Place>, dashboards: seq<Boards.Dashboard>, m: Boards.Metric) {
    match m.source
    case CapacityUsed(place, bucket) => Goals.FindPlace(places, place).Some? && bucket in Goals.FindPlace(places, place).value.capacity
    case InventoryOf(place, thing) =>
      Goals.FindPlace(places, place).Some? && HasThing(things, thing) && thing in Goals.FindPlace(places, place).value.storage
    case FreshnessOf(d) => Boards.FindDashboard(dashboards, d).Some?
  }

  predicate BoardsResolve(things: seq<Thing>, places: seq<Place>, o: Boards.Observability) {
    && (forall d :: d in o.dashboards ==> DashboardResolves(things, d))
    && (forall m :: m in o.metrics ==> MetricResolves(things, places, o.dashboards, m))
    && (forall a :: a in o.alerts ==> Boards.FindMetric(o.metrics, a.metric).Some?)
  }

  lemma DashboardAccepted(things: seq<Thing>, r: RawDashboard)
    requires CheckDashboard(things, r).Some?
    ensures DashboardResolves(things, CheckDashboard(things, r).value)
  {
    ListedIs(r.dependsOn, BoardRef(things), Self);
    var d := CheckDashboard(things, r).value;
    hide Listed, ValidId, Blank, HasThing;
    forall i | 0 <= i < |d.dependsOn| ensures HasThing(things, d.dependsOn[i]) {
      assert d.dependsOn[i] in d.dependsOn;
      var dep :| dep in r.dependsOn && BoardRef(things)(dep) == Some(d.dependsOn[i]);
    }
  }

  lemma DashboardsAccepted(things: seq<Thing>, raws: seq<RawDashboard>)
    requires BoardSection(raws, DashboardCheck(things), Boards.DashboardKey).Some?
    ensures var ds := BoardSection(raws, DashboardCheck(things), Boards.DashboardKey).value;
      SortedBy(ds, Boards.DashboardKey) && forall d :: d in ds ==> DashboardResolves(things, d)
  {
    BoardSectionIs(raws, DashboardCheck(things), Boards.DashboardKey);
    var ds := BoardSection(raws, DashboardCheck(things), Boards.DashboardKey).value;
    hide BoardSection, SortedBy, CheckDashboard, DashboardResolves;
    forall d | d in ds ensures DashboardResolves(things, d) {
      var raw :| raw in raws && DashboardCheck(things)(raw) == Some(d);
      DashboardAccepted(things, raw);
    }
  }

  lemma MetricAccepted(things: seq<Thing>, places: seq<Place>, dashboards: seq<Boards.Dashboard>, r: RawMetric)
    requires CheckMetric(things, places, dashboards, r).Some?
    ensures MetricResolves(things, places, dashboards, CheckMetric(things, places, dashboards, r).value)
  {
    hide ValidId, HasThing, Goals.FindPlace, Boards.FindDashboard;
  }

  lemma MetricsAccepted(things: seq<Thing>, places: seq<Place>, dashboards: seq<Boards.Dashboard>, raws: seq<RawMetric>)
    requires BoardSection(raws, MetricCheck(things, places, dashboards), Boards.MetricKey).Some?
    ensures var ms := BoardSection(raws, MetricCheck(things, places, dashboards), Boards.MetricKey).value;
      SortedBy(ms, Boards.MetricKey) && forall m :: m in ms ==> MetricResolves(things, places, dashboards, m)
  {
    BoardSectionIs(raws, MetricCheck(things, places, dashboards), Boards.MetricKey);
    var ms := BoardSection(raws, MetricCheck(things, places, dashboards), Boards.MetricKey).value;
    hide BoardSection, SortedBy, CheckMetric, MetricResolves;
    forall m | m in ms ensures MetricResolves(things, places, dashboards, m) {
      var raw :| raw in raws && MetricCheck(things, places, dashboards)(raw) == Some(m);
      MetricAccepted(things, places, dashboards, raw);
    }
  }

  lemma AlertsAccepted(metrics: seq<Boards.Metric>, raws: seq<RawAlert>)
    requires BoardSection(raws, AlertCheck(metrics), Boards.AlertKey).Some?
    ensures var alerts := BoardSection(raws, AlertCheck(metrics), Boards.AlertKey).value;
      SortedBy(alerts, Boards.AlertKey) && forall a :: a in alerts ==> Boards.FindMetric(metrics, a.metric).Some?
  {
    BoardSectionIs(raws, AlertCheck(metrics), Boards.AlertKey);
    var alerts := BoardSection(raws, AlertCheck(metrics), Boards.AlertKey).value;
    hide BoardSection, SortedBy, ValidId, Boards.FindMetric;
    forall a | a in alerts ensures Boards.FindMetric(metrics, a.metric).Some? {
      var raw :| raw in raws && AlertCheck(metrics)(raw) == Some(a);
    }
  }

  lemma BoardsAccepted(things: seq<Thing>, places: seq<Place>, r: RawObservability)
    requires CheckObservability(things, places, r).Some?
    ensures var o := CheckObservability(things, places, r).value; Boards.BoardsOk(o, places) && BoardsResolve(things, places, o)
  {
    hide BoardSection, SortedBy, Goals.FindPlace, Boards.FindDashboard, Boards.FindMetric, DashboardCheck, MetricCheck, AlertCheck, DashboardResolves, HasThing;
    var o := CheckObservability(things, places, r).value;
    DashboardsAccepted(things, r.dashboards);
    MetricsAccepted(things, places, o.dashboards, r.metrics);
    AlertsAccepted(o.metrics, r.alerts);
  }

  /** What an agent observes is declared, and so is every objective it weighs. */
  predicate AgentResolves(c: Catalog, a: Agents.Agent) {
    && (forall i :: 0 <= i < |a.scope| ==> InScope(c, a.scope[i]))
    && (forall id :: id in a.weights ==> Has(c.objectives, Goals.ObjectiveKey, id))
  }

  /** What triggers a milestone is declared, and so is everything it asks the viewer to look at. */
  predicate MilestoneResolves(c: Catalog, agents: seq<Agents.Agent>, m: Milestones.Milestone) {
    && TriggerResolves(c, m.trigger)
    && (forall i :: 0 <= i < |m.focus| ==> Focusable(c, agents, m.focus[i]))
    && (m.highlight.Some? ==> Focusable(c, agents, m.highlight.value))
  }

  lemma AgentAccepted(c: Catalog, r: RawAgent)
    requires CheckAgent(c, r).Some?
    ensures var a := CheckAgent(c, r).value; AgentResolves(c, a) && a.interval <= Agents.MAX_INTERVAL && a.cooldown <= Agents.MAX_COOLDOWN
  {
    ListedIs(r.scope, ScopeCheck(c), TargetKey);
    var a := CheckAgent(c, r).value;
    hide Listed, InScope, ValidId, NoneBlank, Has;
    forall i | 0 <= i < |a.scope| ensures InScope(c, a.scope[i]) {
      assert a.scope[i] in a.scope;
      var raw :| raw in r.scope && ScopeCheck(c)(raw) == Some(a.scope[i]);
    }
  }

  lemma MilestoneAccepted(c: Catalog, agents: seq<Agents.Agent>, r: RawMilestone)
    requires CheckMilestone(c, agents, r).Some?
    ensures MilestoneResolves(c, agents, CheckMilestone(c, agents, r).value)
  {
    hide ValidId, NoneBlank, Blank, Focusable, TriggerResolves, DistinctBy;
  }

  lemma CastAccepted(r: RawScene, c: Catalog)
    requires CheckCast(r, c).Some?
    ensures var (agents, milestones) := CheckCast(r, c).value;
      && Agents.AgentsOk(agents) && SortedBy(milestones, Milestones.MilestoneKey)
      && (forall a :: a in agents ==> AgentResolves(c, a))
      && (forall m :: m in milestones ==> MilestoneResolves(c, agents, m))
  {
    var (agents, milestones) := CheckCast(r, c).value;
    SectionIs(r.agents, AgentCheck(c), Agents.AgentKey);
    SectionIs(r.milestones, MilestoneCheck(c, agents), Milestones.MilestoneKey);
    hide Section, SortedBy, CheckAgent, CheckMilestone, AgentResolves, MilestoneResolves;
    forall a | a in agents ensures AgentResolves(c, a) && a.interval <= Agents.MAX_INTERVAL && a.cooldown <= Agents.MAX_COOLDOWN {
      var raw :| raw in r.agents && AgentCheck(c)(raw) == Some(a);
      AgentAccepted(c, raw);
    }
    forall i | 0 <= i < |agents| ensures agents[i].interval <= Agents.MAX_INTERVAL && agents[i].cooldown <= Agents.MAX_COOLDOWN {
      assert agents[i] in agents;
    }
    forall m | m in milestones ensures MilestoneResolves(c, agents, m) {
      var raw :| raw in r.milestones && MilestoneCheck(c, agents)(raw) == Some(m);
      MilestoneAccepted(c, agents, raw);
    }
  }

  // ---- The layout ----

  predicate StockFits(p: Place) {
    forall k :: k in p.storage ==> p.storage[k].initial <= p.storage[k].capacity
  }

  lemma PlaceAccepted(things: seq<Thing>, r: RawPlace)
    requires CheckPlace(things, r).Some?
    ensures StockFits(CheckPlace(things, r).value) && PlaceResolves(things, CheckPlace(things, r).value)
  {
    hide Listed, ValidId, NoneBlank, Blank, Names, HasThing;
  }

  predicate WorldResolves(things: seq<Thing>, places: seq<Place>, links: seq<Link>) {
    && (forall i :: 0 <= i < |places| ==> PlaceResolves(things, places[i]))
    && (forall l :: l in links ==> LinkResolves(things, places, l))
  }

  lemma WorldAccepted(r: RawScene)
    requires CheckWorld(r).Some?
    ensures var (things, places, links) := CheckWorld(r).value;
      && SortedBy(things, ThingKey) && SortedBy(places, PlaceKey) && SortedBy(links, LinkKey)
      && (forall i :: 0 <= i < |places| ==> StockFits(places[i]))
      && WorldResolves(things, places, links)
  {
    var (things, places, links) := CheckWorld(r).value;
    SectionIs(r.things, CheckThing, ThingKey);
    SectionIs(r.places, PlaceCheck(things), PlaceKey);
    SectionIs(r.links, LinkCheck(things, places), LinkKey);
    hide Section, SortedBy, CheckPlace, CheckThing, CheckLink, StockFits, PlaceResolves, LinkResolves;
    forall i | 0 <= i < |places| ensures StockFits(places[i]) && PlaceResolves(things, places[i]) {
      assert places[i] in places;
      var raw :| raw in r.places && PlaceCheck(things)(raw) == Some(places[i]);
      PlaceAccepted(things, raw);
    }
    forall l | l in links ensures LinkResolves(things, places, l) {
      var raw :| raw in r.links && LinkCheck(things, places)(raw) == Some(l);
      LinkAccepted(things, places, raw);
    }
  }

  lemma {:induction false} StockWithin(places: seq<Place>, k: nat)
    requires k <= |places| && forall i :: 0 <= i < |places| ==> StockFits(places[i])
    ensures InitialFirst(places, k).Keys == StorageFirst(places, k).Keys
    ensures forall s :: s in InitialFirst(places, k) ==> InitialFirst(places, k)[s] <= StorageFirst(places, k)[s]
  {
    if k > 0 {
      StockWithin(places, k - 1);
      var p := places[k - 1];
      assert StockFits(p);
      assert InitialsOf(p).Keys == CapacitiesOf(p).Keys;
    }
  }

  lemma {:induction false} SlotsOf(places: seq<Place>, k: nat, i: nat)
    requires i < k <= |places|
    ensures forall name :: name in places[i].storage ==> (places[i].id, name) in StorageFirst(places, k)
    ensures forall name :: name in places[i].capacity ==> (places[i].id, name) in BaseFirst(places, k)
  {
    if i < k - 1 {
      SlotsOf(places, k - 1, i);
    }
  }

  lemma PlaceSlots(places: seq<Place>, id: Id)
    requires Goals.FindPlace(places, id).Some?
    ensures var p := Goals.FindPlace(places, id).value;
      && (forall name :: name in p.storage ==> (id, name) in StorageFirst(places, |places|))
      && (forall name :: name in p.capacity ==> (id, name) in BaseFirst(places, |places|))
  {
    var p := Goals.FindPlace(places, id).value;
    var i :| 0 <= i < |places| && places[i] == p;
    SlotsOf(places, |places|, i);
  }

  /** All references a scene holds lead somewhere. */
  ghost predicate Resolves(s: Scene) {
    && WorldResolves(s.things, s.places, s.links)
    && (forall t :: t in s.transforms ==> TransformResolves(s.things, s.places, t))
    && (forall d :: d in s.demand ==> DemandResolves(s.things, s.places, d))
    && (forall p :: p in s.pressure ==> PressureResolves(s.things, s.places, s.demand, s.links, p))
    && RulesResolve(s.places, s.demand, RulesOf(s))
    && BoardsResolve(s.things, s.places, BoardsOf(s))
    && (forall a :: a in s.agents ==> AgentResolves(CatalogOf(s), a))
    && (forall m :: m in s.milestones ==> MilestoneResolves(CatalogOf(s), s.agents, m))
  }

  lemma CostsInBase(places: seq<Place>, things: seq<Thing>, ts: seq<Transform>, i: nat, j: nat)
    requires i < |ts| && j < |ts[i].cost| && TransformResolves(things, places, ts[i])
    ensures (ts[i].runsOn, ts[i].cost[j].name) in BaseFirst(places, |places|)
  {
    PlaceSlots(places, ts[i].runsOn);
  }

  lemma SourcesInStorage(things: seq<Thing>, places: seq<Place>, demand: seq<Demand>, links: seq<Link>, ps: seq<Pressure>)
    requires forall p :: p in ps ==> PressureResolves(things, places, demand, links, p)
    ensures SceneTheorems.SourceSlots(ps) <= StorageFirst(places, |places|).Keys
  {
    forall slot | slot in SceneTheorems.SourceSlots(ps) ensures slot in StorageFirst(places, |places|) {
      var p :| p in ps && p.params.SourceMultiplier? && slot == (p.target, p.params.thing);
      PlaceSlots(places, p.target);
    }
  }

  /** The layout of a scene whose references resolve is one the plant can run on. */
  lemma LayoutAccepted(s: Scene)
    requires TransformsOk(s.transforms)
    requires forall i :: 0 <= i < |s.places| ==> StockFits(s.places[i])
    requires forall t :: t in s.transforms ==> TransformResolves(s.things, s.places, t)
    requires forall p :: p in s.pressure ==> PressureResolves(s.things, s.places, s.demand, s.links, p)
    ensures PlantRuns.Laid(LayoutOf(s), SceneTheorems.SourceSlots(s.pressure))
  {
    StockWithin(s.places, |s.places|);
    SourcesInStorage(s.things, s.places, s.demand, s.links, s.pressure);
    hide TransformsOk, StorageFirst, InitialFirst, BaseFirst, TransformResolves, PressureResolves, SceneTheorems.SourceSlots;
    forall i, j | 0 <= i < |s.transforms| && 0 <= j < |s.transforms[i].cost|
      ensures (s.transforms[i].runsOn, s.transforms[i].cost[j].name) in BaseFirst(s.places, |s.places|)
    {
      assert s.transforms[i] in s.transforms;
      CostsInBase(s.places, s.things, s.transforms, i, j);
    }
  }

  lemma WorkAccepted(r: RawScene, things: seq<Thing>, places: seq<Place>, links: seq<Link>)
    requires CheckWork(r, things, places, links).Some?
    ensures var (transforms, demand, pressure) := CheckWork(r, things, places, links).value;
      && TransformsOk(transforms) && (forall t :: t in transforms ==> TransformResolves(things, places, t))
      && SortedBy(demand, DemandKey) && (forall d :: d in demand ==> Demands.ScheduleOk(d.schedule) && d.needs != [])
      && (forall d :: d in demand ==> DemandResolves(things, places, d))
      && Pressures.PressuresOk(pressure) && (forall p :: p in pressure ==> PressureResolves(things, places, demand, links, p))
  {
    var (transforms, demand, pressure) := CheckWork(r, things, places, links).value;
    TransformsAccepted(things, places, r.transforms);
    DemandsAccepted(things, places, r.demand);
    PressuresAccepted(things, places, demand, links, r.pressure);
    hide Section, TransformsOk, TransformResolves, SortedBy, Demands.ScheduleOk, DemandResolves, Pressures.PressuresOk, PressureResolves;
  }

  lemma ObservedAccepted(r: RawScene, things: seq<Thing>, places: seq<Place>)
    requires CheckBoards(r, things, places).Some?
    ensures var o := ShownBoards(CheckBoards(r, things, places).value); Boards.BoardsOk(o, places) && BoardsResolve(things, places, o)
  {
    if r.observability.Some? { BoardsAccepted(things, places, r.observability.value); }
    hide CheckObservability;
  }

  lemma FinishAccepted(
    r: RawScene, things: seq<Thing>, places: seq<Place>, links: seq<Link>, transforms: seq<Transform>, demand: seq<Demand>, pressure: seq<Pressure>)
    requires FinishScene(r, things, places, links, transforms, demand, pressure).Some?
    requires SortedBy(things, ThingKey) && SortedBy(places, PlaceKey) && WorldResolves(things, places, links)
    requires TransformsOk(transforms) && (forall t :: t in transforms ==> TransformResolves(things, places, t))
    requires SortedBy(demand, DemandKey) && (forall d :: d in demand ==> Demands.ScheduleOk(d.schedule) && d.needs != [])
    requires forall d :: d in demand ==> DemandResolves(things, places, d)
    requires Pressures.PressuresOk(pressure) && (forall p :: p in pressure ==> PressureResolves(things, places, demand, links, p))
    ensures var s := FinishScene(r, things, places, links, transforms, demand, pressure).value;
      && s.things == things && s.places == places && s.links == links && s.transforms == transforms && s.demand == demand && s.pressure == pressure
      && SceneOk(s) && Resolves(s)
  {
    hide *;
    var s := FinishScene(r, things, places, links, transforms, demand, pressure).value;
    FinishUnfold(r, things, places, links, transforms, demand, pressure);
    RulesAccepted(r, things, places, transforms, demand);
    ObservedAccepted(r, things, places);
    CastAccepted(r, CatalogOf(s));
    Assembled(s);
  }

  function CatalogOf(s: Scene): Catalog {
    Catalog(s.things, s.places, s.links, s.transforms, s.demand, s.pressure, s.objectives, s.failures, BoardsOf(s))
  }

  lemma FinishUnfold(
    r: RawScene, things: seq<Thing>, places: seq<Place>, links: seq<Link>, transforms: seq<Transform>, demand: seq<Demand>, pressure: seq<Pressure>)
    requires FinishScene(r, things, places, links, transforms, demand, pressure).Some?
    ensures var s := FinishScene(r, things, places, links, transforms, demand, pressure).value;
      && s.things == things && s.places == places && s.links == links && s.transforms == transforms && s.demand == demand && s.pressure == pressure
      && CheckRules(r, things, places, transforms, demand).Some?
      && (CheckRules(r, things, places, transforms, demand).value.places == places ==> CheckRules(r, things, places, transforms, demand).value == RulesOf(s))
      && CheckBoards(r, things, places).Some? && ShownBoards(CheckBoards(r, things, places).value) == BoardsOf(s)
      && CheckCast(r, CatalogOf(s)) == Some((s.agents, s.milestones))
  {
    hide CheckRules, CheckBoards, CheckCast;
  }

  lemma Assembled(s: Scene)
    requires SortedBy(s.things, ThingKey) && SortedBy(s.places, PlaceKey) && WorldResolves(s.things, s.places, s.links)
    requires TransformsOk(s.transforms) && (forall t :: t in s.transforms ==> TransformResolves(s.things, s.places, t))
    requires SortedBy(s.demand, DemandKey) && (forall d :: d in s.demand ==> Demands.ScheduleOk(d.schedule) && d.needs != [])
    requires forall d :: d in s.demand ==> DemandResolves(s.things, s.places, d)
    requires Pressures.PressuresOk(s.pressure) && (forall p :: p in s.pressure ==> PressureResolves(s.things, s.places, s.demand, s.links, p))
    requires Goals.RulesOk(RulesOf(s)) && RulesResolve(s.places, s.demand, RulesOf(s)) && Boards.BoardsOk(BoardsOf(s), s.places)
    requires BoardsResolve(s.things, s.places, BoardsOf(s))
    requires Agents.AgentsOk(s.agents) && SortedBy(s.milestones, Milestones.MilestoneKey)
    requires forall a :: a in s.agents ==> AgentResolves(CatalogOf(s), a)
    requires forall m :: m in s.milestones ==> MilestoneResolves(CatalogOf(s), s.agents, m)
    ensures SceneOk(s) && Resolves(s)
  {
    hide TransformsOk, TransformResolves, SortedBy, Demands.ScheduleOk, DemandResolves, Pressures.PressuresOk, PressureResolves;
    hide Goals.RulesOk, RulesResolve, Boards.BoardsOk, Agents.AgentsOk, AgentResolves, MilestoneResolves, RulesOf, BoardsOf, WorldResolves, BoardsResolve;
  }

  /** The slots of a scene that its pressures pour into. */
  function Sources(s: Scene): set<Slot> { SceneTheorems.SourceSlots(s.pressure) }

  /** The storage capacities of a scene have room for all that can be on its way into them. */
  ghost predicate HasRoom(s: Scene) { Reservations.CapsFit(s.transforms, CapsOf(s.places), Sources(s)) }

  /**
   * Every accepted scene is one the engine can run: its sections are canonical and within bounds, every reference
   * it holds resolves, and its layout is one the plant can run on, keeping all limits if its storage has room.
   */
  lemma AcceptedScenesRun(r: RawScene)
    requires Validate(r).Some?
    ensures SceneOk(Validate(r).value) && Resolves(Validate(r).value)
    ensures PlantRuns.Laid(LayoutOf(Validate(r).value), Sources(Validate(r).value))
    ensures HasRoom(Validate(r).value) ==> PlantRuns.LayoutOk(LayoutOf(Validate(r).value), Sources(Validate(r).value))
  {
    var (things, places, links) := CheckWorld(r).value;
    var (transforms, demand, pressure) := CheckWork(r, things, places, links).value;
    WorldAccepted(r);
    WorkAccepted(r, things, places, links);
    hide *;
    Unpack(r);
    FinishAccepted(r, things, places, links, transforms, demand, pressure);
    var s := Validate(r).value;
    assert s.places == places;
    LayoutAccepted(s);
    RoomIsLayout(s);
  }

  lemma RoomIsLayout(s: Scene)
    requires PlantRuns.Laid(LayoutOf(s), SceneTheorems.SourceSlots(s.pressure))
    ensures PlantRuns.Laid(LayoutOf(s), Sources(s))
    ensures HasRoom(s) ==> PlantRuns.LayoutOk(LayoutOf(s), Sources(s))
  {
    hide PlantRuns.Laid, Reservations.CapsFit, CapsOf;
  }

  lemma Unpack(r: RawScene)
    requires Validate(r).Some?
    ensures CheckWorld(r).Some?
    ensures var (things, places, links) := CheckWorld(r).value;
      && CheckWork(r, things, places, links).Some?
      && var (transforms, demand, pressure) := CheckWork(r, things, places, links).value;
         FinishScene(r, things, places, links, transforms, demand, pressure) == Validate(r)
  {
    hide CheckWorld, CheckWork, FinishScene;
  }

  /** From declaration to any tick of any run: an accepted scene with room keeps every limit and balances its ledger. */
  lemma AcceptedRunsKeepLimits(r: RawScene, ask: Agents.Backend, n: nat)
    requires Validate(r).Some? && n <= U64_MAX && HasRoom(Validate(r).value)
    ensures var s := Validate(r).value;
      PlantRuns.PlantOk(LayoutOf(s), Sources(s), PlantRuns.ArrivedBy(LayoutOf(s), Sl1Runs.Weathers(s, n), n), TickEngine.WorldAt(s, ask, n).plant, n)
  {
    hide *;
    AcceptedScenesRun(r);
    SourcesAre(Validate(r).value);
    SceneTheorems.SceneKeepsLimits(Validate(r).value, ask, n);
  }

  /** From declaration to any tick of any run: every map of an accepted scene's state has exactly the declared keys. */
  lemma AcceptedRunsKeyed(r: RawScene, ask: Agents.Backend, n: nat)
    requires Validate(r).Some? && n <= U64_MAX
    ensures var s := Validate(r).value;
      TickEngine.Keyed(s, TickEngine.WorldAt(s, ask, n)) && PlantKeys.PlantKeyed(LayoutOf(s), TickEngine.WorldAt(s, ask, n).plant)
  {
    hide *;
    AcceptedScenesRun(r);
    SourcesAre(Validate(r).value);
    SceneTheorems.SceneKeyed(Validate(r).value, ask, n);
  }

  lemma SourcesAre(s: Scene)
    ensures Sources(s) == SceneTheorems.SourceSlots(s.pressure)
  {
  }
}
