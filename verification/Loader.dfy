/** The scene loader: what each section demands of its entries, and the whole scene from its sections. */
module Loader {
  import opened Base
  import opened Text
  import opened Order
  import opened Sl1Scene
  import opened Loading
  import Pressures
  import Demands
  import Goals
  import Boards
  import Agents
  import Milestones
  import opened Sl1State

  const SL1_SCHEMA_VERSION: nat := 1
  const MAX_REQUIRES: nat := 64
  const MAX_SCRIPTED: nat := 100_000
  const MAX_MILLI: nat := 1_000_000
  const MAX_SPAWN: nat := 64
  const MAX_OBJECTIVE_TICKS: nat := 1_000_000
  const MAX_WEIGHT: nat := 10_000
  const MAX_BOARD_ITEMS: nat := 1_000
  const MAX_LIST: nat := 256
  const MAX_PENALTY: int := 1_000_000_000

  // ---- Entries as declared: discriminators already told apart, floats already decided ----

  /** `texts` are the display strings that must not be blank. */
  datatype RawThing = RawThing(id: Id, texts: seq<string>, tags: seq<Id>, schemaVersion: Option<u32>, budget: Option<u64>, contract: Option<RawContract>)
  /** A fraction that is not finite is None. */
  datatype RawContract = RawContract(maxDrop: Option<Option<real>>, maxLate: Option<u64>, required: seq<Id>)

  datatype RawPlace = RawPlace(
    id: Id, texts: seq<string>, posOk: bool, capacity: map<Id, u64>, storage: map<Id, StorageSlot>,
    accepts: seq<Id>, produces: seq<Id>, failureDomains: seq<Id>, states: map<Id, Operating>)

  datatype RawLink = RawLink(
    id: Id, texts: seq<string>, from: Id, to: Id, direction: Option<Direction>, backpressure: Option<Backpressure>,
    capacity: map<Id, u64>, travel: u64, queue: u64, compatibility: seq<Id>)

  /** A map of amounts, in key order. */
  type Amounts = items: seq<Item> | SortedBy(items, ItemKey) witness []

  datatype RawTransform = RawTransform(
    id: Id, texts: seq<string>, runsOn: Id, inputs: seq<Item>, outputs: seq<Item>,
    cadence: u64, duration: u64, deadline: u64, cost: Amounts, policy: Option<Policy>, maxAttempts: u32)

  datatype ScheduleKind = FixedKind | ScriptedKind | OtherSchedule
  datatype RawSchedule = RawSchedule(kind: ScheduleKind, every: Option<u64>, start: Option<u64>, ticks: Option<seq<u64>>)
  datatype RawDemand = RawDemand(
    id: Id, texts: seq<string>, onPlace: bool, target: Id, needs: seq<Id>, schedule: RawSchedule, deadline: u64,
    priorityKnown: bool, value: u64, penalty: int)

  datatype PressureKind = SourceKind | GrowthKind | QuotaKind | OutageKind | SchemaDrift | OtherOnPlace | UnknownPressure
  datatype RawPressure = RawPressure(
    id: Id, atTick: u64, duration: u64, kind: PressureKind, target: Id,
    thing: Option<Id>, milli: Option<u64>, spawn: Option<u32>, capacity: Option<Id>, percent: Option<nat>)

  datatype ObjectiveKind = FreshKind | JobsKind | UtilizationKind | UnsupportedKind | UnknownObjective
  datatype RawObjective = RawObjective(
    id: Id, kind: ObjectiveKind, weight: Option<u32>, place: Option<Id>, thing: Option<Id>, maxStale: Option<u64>,
    demand: Option<Id>, maxMissed: Option<u64>, capacity: Option<Id>, minPercent: Option<nat>, maxPercent: Option<nat>,
    maxCost: Option<u64>, maxViolations: Option<u64>, p95: Option<u64>, target: Option<Id>)

  datatype FailureKind = StaleKind | StateKind | BreachKind | UnknownFailure
  datatype RawFailure = RawFailure(
    id: Id, kind: FailureKind, place: Option<Id>, thing: Option<Id>, threshold: Option<u64>, grace: Option<u64>,
    state: Option<Id>, objective: Option<Id>, maxCount: Option<u64>)
  datatype RawVictory = RawVictory(id: Id, survive: bool, atTick: Option<u64>)

  datatype RawDashboard = RawDashboard(id: Id, kindKnown: bool, dependsOn: seq<Id>, slo: u64)
  datatype MetricKind = UsedKind | CountKind | AgeKind | UnknownMetric
  datatype RawMetric = RawMetric(id: Id, kind: MetricKind, place: Option<Id>, thing: Option<Id>, capacity: Option<Id>, dashboard: Option<Id>)
  datatype RawAlert = RawAlert(id: Id, metric: Id, test: Boards.AlertTest, severityKnown: bool)
  datatype RawObservability = RawObservability(metrics: seq<RawMetric>, dashboards: seq<RawDashboard>, alerts: seq<RawAlert>)

  /** A scope entry is a kind and an id; None if it has another form. A weight that is not finite is None. */
  datatype RawAgent = RawAgent(
    id: Id, kind: Option<Agents.AgentKind>, texts: seq<string>, interval: u64, scope: seq<Option<Agents.Target>>,
    allowed: seq<Option<Agents.ActionKind>>, weights: map<Id, Option<real>>, maxCost: u64, cooldown: u64)

  datatype RawMilestone = RawMilestone(id: Id, texts: seq<string>, focus: Option<seq<Id>>, highlight: Option<Id>, trigger: Option<Milestones.Trigger>)

  datatype RawScene = RawScene(
    schemaVersion: u32, extra: set<string>,
    things: seq<RawThing>, places: seq<RawPlace>, links: seq<RawLink>, transforms: seq<RawTransform>, demand: seq<RawDemand>,
    pressure: seq<RawPressure>, objectives: seq<RawObjective>, failures: seq<RawFailure>, victories: seq<RawVictory>,
    observability: Option<RawObservability>, agents: seq<RawAgent>, milestones: seq<RawMilestone>)

  function ItemKey(i: Item): string { i.name }

  // ---- Looking things up ----

  predicate Has<T>(items: seq<T>, key: T -> string, id: Id) { exists i :: 0 <= i < |items| && key(items[i]) == id }

  predicate HasThing(things: seq<Thing>, id: Id) { Has(things, ThingKey, id) }

  /** A thing, or a tag some thing carries. */
  predicate Names(things: seq<Thing>, name: Id) {
    HasThing(things, name) || exists i :: 0 <= i < |things| && name in things[i].tags
  }

  predicate Within(v: u64, max: nat) { 1 <= v <= max }

  function NonBlank(s: string): Option<string> { if Blank(s) then None else Some(s) }

  // ---- Things, places, links ----

  predicate Fraction(v: Option<real>) { v.Some? && 0.0 <= v.value <= 1.0 }

  function CheckContract(r: RawContract): Option<Contract> {
    var required := Listed(r.required, NonBlank, Self);
    if (r.maxDrop.Some? ==> Fraction(r.maxDrop.value)) && (r.maxLate.Some? ==> Within(r.maxLate.value, MAX_TICKS)) && required.Some?
    then Some(Contract(if r.maxDrop.Some? then r.maxDrop.value else None, r.maxLate, required.value)) else None
  }

  function CheckThing(r: RawThing): Option<Thing> {
    var tags := Listed(r.tags, NonBlank, Self);
    var contract := if r.contract.Some? then CheckContract(r.contract.value) else None;
    if ValidId(r.id) && NoneBlank(r.texts) && tags.Some? && r.schemaVersion != Some(0) && (r.budget.Some? ==> Within(r.budget.value, MAX_TICKS))
       && (r.contract.Some? ==> contract.Some?)
    then Some(Thing(r.id, tags.value, r.budget, contract)) else None
  }

  predicate StorageOk(things: seq<Thing>, storage: map<Id, StorageSlot>) {
    forall k :: k in storage ==> !Blank(k) && storage[k].capacity > 0 && storage[k].initial <= storage[k].capacity && HasThing(things, k)
  }

  /** A percentage is of a declared bucket; the text of the predicate has been read. */
  predicate StateOk(capacity: map<Id, u64>, s: Operating) {
    s.UsedPercentGte? ==> ValidId(s.bucket) && s.threshold <= 100 && s.bucket in capacity
  }

  predicate StatesOk(capacity: map<Id, u64>, states: map<Id, Operating>) {
    forall k :: k in states ==> !Blank(k) && StateOk(capacity, states[k])
  }

  function CheckPlace(things: seq<Thing>, r: RawPlace): Option<Place> {
    var accepts, produces, domains := Listed(r.accepts, NonBlank, Self), Listed(r.produces, NonBlank, Self), Listed(r.failureDomains, NonBlank, Self);
    if ValidId(r.id) && NoneBlank(r.texts) && r.posOk && (forall k :: k in r.capacity ==> !Blank(k))
       && StorageOk(things, r.storage) && accepts.Some? && produces.Some? && domains.Some? && StatesOk(r.capacity, r.states)
       && (forall i :: 0 <= i < |accepts.value| ==> Names(things, accepts.value[i]))
       && (forall i :: 0 <= i < |produces.value| ==> Names(things, produces.value[i]))
    then Some(Place(r.id, r.capacity, r.storage, accepts.value, produces.value, r.states)) else None
  }

  function PlaceCheck(things: seq<Thing>): RawPlace -> Option<Place> { r => CheckPlace(things, r) }

  function CheckLink(things: seq<Thing>, places: seq<Place>, r: RawLink): Option<Link> {
    var compatible := Listed(r.compatibility, NonBlank, Self);
    if ValidId(r.id) && NoneBlank(r.texts) && Has(places, PlaceKey, r.from) && Has(places, PlaceKey, r.to) && r.from != r.to
       && r.direction.Some? && r.backpressure.Some?
       && (forall k :: k in r.capacity ==> !Blank(k)) && Within(r.travel, MAX_TICKS) && Within(r.queue, MAX_AMOUNT)
       && compatible.Some? && (forall i :: 0 <= i < |compatible.value| ==> Names(things, compatible.value[i]))
    then Some(Link(r.id, r.from, r.to, r.direction.value, r.capacity, r.travel, compatible.value, r.queue, r.backpressure.value)) else None
  }

  function LinkCheck(things: seq<Thing>, places: seq<Place>): RawLink -> Option<Link> { r => CheckLink(things, places, r) }

  // ---- Transforms and demand ----

  function CheckItem(things: seq<Thing>, i: Item): Option<Item> {
    if HasThing(things, i.name) && Within(i.amount, MAX_AMOUNT) then Some(i) else None
  }

  function ItemCheck(things: seq<Thing>): Item -> Option<Item> { i => CheckItem(things, i) }

  function CheckTransform(things: seq<Thing>, places: seq<Place>, r: RawTransform): Option<Transform> {
    var place := Goals.FindPlace(places, r.runsOn);
    var inputs, outputs := Listed(r.inputs, ItemCheck(things), ItemKey), Listed(r.outputs, ItemCheck(things), ItemKey);
    if ValidId(r.id) && NoneBlank(r.texts) && place.Some? && inputs.Some? && r.outputs != [] && outputs.Some?
       && Within(r.cadence, MAX_TICKS) && Within(r.duration, MAX_TICKS) && Within(r.deadline, MAX_TICKS) && r.duration <= r.deadline
       && (forall i :: 0 <= i < |r.cost| ==> !Blank(r.cost[i].name) && Within(r.cost[i].amount, MAX_AMOUNT) && r.cost[i].name in place.value.capacity)
       && r.policy.Some? && 1 <= r.maxAttempts <= MAX_ATTEMPT_LIMIT
    then Some(Transform(r.id, r.runsOn, inputs.value, outputs.value, r.cadence, r.duration, r.deadline, r.cost, r.policy.value, r.maxAttempts))
    else None
  }

  function TransformCheck(things: seq<Thing>, places: seq<Place>): RawTransform -> Option<Transform> { r => CheckTransform(things, places, r) }

  function CheckSchedule(r: RawSchedule): Option<Schedule> {
    match r.kind
    case FixedKind =>
      if r.ticks.None? && r.every.Some? && r.start.Some? && Within(r.every.value, MAX_TICKS) && Within(r.start.value, MAX_TICKS)
      then Some(Fixed(r.every.value, r.start.value)) else None
    case ScriptedKind =>
      if r.every.None? && r.start.None? && r.ticks.Some? && 1 <= |r.ticks.value| <= MAX_SCRIPTED
         && (forall i :: 0 <= i < |r.ticks.value| ==> Within(r.ticks.value[i], MAX_TICKS))
         && (forall i :: 0 < i < |r.ticks.value| ==> r.ticks.value[i - 1] < r.ticks.value[i])
      then Some(Scripted(r.ticks.value)) else None
    case OtherSchedule => None
  }

  function ThingRef(things: seq<Thing>): Id -> Option<Id> { id => if HasThing(things, id) then Some(id) else None }

  function CheckDemand(things: seq<Thing>, places: seq<Place>, r: RawDemand): Option<Demand> {
    var needs, schedule := Listed(r.needs, ThingRef(things), Self), CheckSchedule(r.schedule);
    if ValidId(r.id) && NoneBlank(r.texts) && r.onPlace && Has(places, PlaceKey, r.target)
       && 1 <= |r.needs| <= MAX_REQUIRES && needs.Some? && schedule.Some? && Within(r.deadline, MAX_TICKS)
       && r.priorityKnown && r.value <= MAX_AMOUNT && -MAX_PENALTY <= r.penalty <= 0
    then Some(Demand(r.id, r.target, needs.value, schedule.value, r.deadline)) else None
  }

  function DemandCheck(things: seq<Thing>, places: seq<Place>): RawDemand -> Option<Demand> { r => CheckDemand(things, places, r) }

  // ---- Pressure ----

  function PressureParamsOf(things: seq<Thing>, places: seq<Place>, demand: seq<Demand>, links: seq<Link>, r: RawPressure): Option<PressureParams> {
    var place := Goals.FindPlace(places, r.target);
    match r.kind
    case SourceKind =>
      if r.spawn.None? && r.capacity.None? && r.percent.None? && r.thing.Some? && HasThing(things, r.thing.value)
         && place.Some? && r.thing.value in place.value.storage && r.milli.Some? && Within(r.milli.value, MAX_MILLI)
      then Some(SourceMultiplier(r.thing.value, r.milli.value)) else None
    case GrowthKind =>
      if r.thing.None? && r.milli.None? && r.capacity.None? && r.percent.None? && Has(demand, DemandKey, r.target)
         && r.spawn.Some? && Within(r.spawn.value, MAX_SPAWN)
      then Some(DemandGrowth(r.spawn.value)) else None
    case QuotaKind =>
      if r.thing.None? && r.milli.None? && r.spawn.None? && place.Some? && r.capacity.Some? && r.capacity.value in place.value.capacity
         && r.percent.Some? && 1 <= r.percent.value <= 100
      then Some(QuotaReduction(r.capacity.value, r.percent.value)) else None
    case OutageKind => if NoParams(r) && Has(links, LinkKey, r.target) then Some(PathOutage) else None
    case SchemaDrift => if NoParams(r) && HasThing(things, r.target) then Some(UnsupportedPressure(true)) else None
    case OtherOnPlace => if NoParams(r) && place.Some? then Some(UnsupportedPressure(false)) else None
    case UnknownPressure => None
  }

  predicate NoParams(r: RawPressure) { r.thing.None? && r.milli.None? && r.spawn.None? && r.capacity.None? && r.percent.None? }

  function CheckPressure(things: seq<Thing>, places: seq<Place>, demand: seq<Demand>, links: seq<Link>, r: RawPressure): Option<Pressure> {
    var params := PressureParamsOf(things, places, demand, links, r);
    if ValidId(r.id) && Within(r.duration, MAX_TICKS) && r.atTick <= MAX_TICKS && r.atTick + r.duration <= MAX_TICKS
       && !Blank(r.target) && params.Some?
    then Some(Pressure(r.id, r.atTick, r.duration, r.target, params.value)) else None
  }

  function PressureCheck(things: seq<Thing>, places: seq<Place>, demand: seq<Demand>, links: seq<Link>): RawPressure -> Option<Pressure> {
    r => CheckPressure(things, places, demand, links, r)
  }

  // ---- Objectives, failure conditions, victory conditions ----

  predicate Declared(things: seq<Thing>, places: seq<Place>, transforms: seq<Transform>, demand: seq<Demand>, id: Id) {
    Has(places, PlaceKey, id) || HasThing(things, id) || Has(transforms, TransformKey, id) || Has(demand, DemandKey, id)
  }

  function ObjectiveParamsOf(
    things: seq<Thing>, places: seq<Place>, transforms: seq<Transform>, demand: seq<Demand>, r: RawObjective): Option<Goals.ObjectiveParams>
  {
    var unused := r.maxCost.None? && r.maxViolations.None? && r.p95.None? && r.target.None?;
    match r.kind
    case FreshKind =>
      if r.place.Some? && r.thing.Some? && r.maxStale.Some? && r.demand.None? && r.maxMissed.None? && r.capacity.None?
         && r.minPercent.None? && r.maxPercent.None? && unused && Within(r.maxStale.value, MAX_OBJECTIVE_TICKS)
         && Goals.FindPlace(places, r.place.value).Some? && HasThing(things, r.thing.value)
         && r.thing.value in Goals.FindPlace(places, r.place.value).value.storage
      then Some(Goals.KeepFresh(r.place.value, r.thing.value, r.maxStale.value)) else None
    case JobsKind =>
      if r.demand.Some? && r.maxMissed.Some? && r.place.None? && r.thing.None? && r.maxStale.None? && r.capacity.None?
         && r.minPercent.None? && r.maxPercent.None? && unused && Within(r.maxMissed.value, MAX_OBJECTIVE_TICKS) && Has(demand, DemandKey, r.demand.value)
      then Some(Goals.CompleteJobs(r.demand.value, r.maxMissed.value)) else None
    case UtilizationKind =>
      if r.place.Some? && r.capacity.Some? && r.minPercent.Some? && r.maxPercent.Some? && r.thing.None? && r.maxStale.None?
         && r.demand.None? && r.maxMissed.None? && unused && r.minPercent.value <= r.maxPercent.value <= 100
         && Goals.FindPlace(places, r.place.value).Some? && r.capacity.value in Goals.FindPlace(places, r.place.value).value.capacity
      then Some(Goals.MaintainUtilization(r.place.value, r.capacity.value, r.minPercent.value, r.maxPercent.value)) else None
    case UnsupportedKind =>
      if (r.maxCost.Some? ==> Within(r.maxCost.value, MAX_OBJECTIVE_TICKS)) && (r.maxViolations.Some? ==> Within(r.maxViolations.value, MAX_OBJECTIVE_TICKS))
         && (r.p95.Some? ==> Within(r.p95.value, MAX_OBJECTIVE_TICKS))
         && (r.target.Some? ==> Declared(things, places, transforms, demand, r.target.value))
      then Some(Goals.UnsupportedObjective) else None
    case UnknownObjective => None
  }

  function CheckObjective(
    things: seq<Thing>, places: seq<Place>, transforms: seq<Transform>, demand: seq<Demand>, r: RawObjective): Option<Goals.Objective>
  {
    var params := ObjectiveParamsOf(things, places, transforms, demand, r);
    if ValidId(r.id) && (r.weight.Some? ==> Within(r.weight.value, MAX_WEIGHT)) && params.Some?
    then Some(Goals.Objective(r.id, params.value)) else None
  }

  function ObjectiveCheck(
    things: seq<Thing>, places: seq<Place>, transforms: seq<Transform>, demand: seq<Demand>): RawObjective -> Option<Goals.Objective>
  {
    r => CheckObjective(things, places, transforms, demand, r)
  }

  function FailureParamsOf(things: seq<Thing>, places: seq<Place>, objectives: seq<Goals.Objective>, r: RawFailure): Option<Goals.FailureParams> {
    var grace := if r.grace.Some? then r.grace.value else 0;
    match r.kind
    case StaleKind =>
      if r.place.Some? && r.thing.Some? && r.threshold.Some? && r.state.None? && r.objective.None? && r.maxCount.None?
         && Within(r.threshold.value, MAX_OBJECTIVE_TICKS) && grace <= MAX_OBJECTIVE_TICKS
         && Goals.FindPlace(places, r.place.value).Some? && HasThing(things, r.thing.value)
         && r.thing.value in Goals.FindPlace(places, r.place.value).value.storage
      then Some(Goals.StaleTarget(r.place.value, r.thing.value, r.threshold.value, grace)) else None
    case StateKind =>
      if r.place.Some? && r.state.Some? && r.thing.None? && r.threshold.None? && r.objective.None? && r.maxCount.None?
         && grace <= MAX_OBJECTIVE_TICKS && Goals.FindPlace(places, r.place.value).Some?
         && r.state.value in Goals.FindPlace(places, r.place.value).value.states
         && Goals.FindPlace(places, r.place.value).value.states[r.state.value].UsedPercentGte?
      then Some(Goals.PlaceState(r.place.value, r.state.value, grace)) else None
    case BreachKind =>
      if r.objective.Some? && r.maxCount.Some? && r.place.None? && r.thing.None? && r.threshold.None? && r.grace.None? && r.state.None?
         && Within(r.maxCount.value, MAX_OBJECTIVE_TICKS) && Has(objectives, Goals.ObjectiveKey, r.objective.value)
      then Some(Goals.BreachCount(r.objective.value, r.maxCount.value)) else None
    case UnknownFailure => None
  }

  function CheckFailure(things: seq<Thing>, places: seq<Place>, objectives: seq<Goals.Objective>, r: RawFailure): Option<Goals.Failure> {
    var params := FailureParamsOf(things, places, objectives, r);
    if ValidId(r.id) && params.Some? then Some(Goals.Failure(r.id, params.value)) else None
  }

  function FailureCheck(things: seq<Thing>, places: seq<Place>, objectives: seq<Goals.Objective>): RawFailure -> Option<Goals.Failure> {
    r => CheckFailure(things, places, objectives, r)
  }

  function CheckVictory(r: RawVictory): Option<Goals.Victory> {
    if ValidId(r.id) && r.survive && r.atTick.Some? && Within(r.atTick.value, MAX_OBJECTIVE_TICKS)
    then Some(Goals.Victory(r.id, r.atTick.value)) else None
  }

  // ---- Observability ----

  function BoardRef(things: seq<Thing>): Id -> Option<Id> { id => if !Blank(id) && HasThing(things, id) then Some(id) else None }

  function CheckDashboard(things: seq<Thing>, r: RawDashboard): Option<Boards.Dashboard> {
    var deps := Listed(r.dependsOn, BoardRef(things), Self);
    if ValidId(r.id) && r.kindKnown && r.slo > 0 && deps.Some? then Some(Boards.Dashboard(r.id, deps.value, r.slo)) else None
  }

  function DashboardCheck(things: seq<Thing>): RawDashboard -> Option<Boards.Dashboard> { r => CheckDashboard(things, r) }

  function MetricSourceOf(things: seq<Thing>, places: seq<Place>, dashboards: seq<Boards.Dashboard>, r: RawMetric): Option<Boards.MetricSource> {
    match r.kind
    case UsedKind =>
      if r.thing.None? && r.dashboard.None? && r.place.Some? && r.capacity.Some? && Goals.FindPlace(places, r.place.value).Some?
         && r.capacity.value in Goals.FindPlace(places, r.place.value).value.capacity
      then Some(Boards.CapacityUsed(r.place.value, r.capacity.value)) else None
    case CountKind =>
      if r.capacity.None? && r.dashboard.None? && r.place.Some? && r.thing.Some? && Goals.FindPlace(places, r.place.value).Some?
         && HasThing(things, r.thing.value) && r.thing.value in Goals.FindPlace(places, r.place.value).value.storage
      then Some(Boards.InventoryOf(r.place.value, r.thing.value)) else None
    case AgeKind =>
      if r.place.None? && r.thing.None? && r.capacity.None? && r.dashboard.Some? && Boards.FindDashboard(dashboards, r.dashboard.value).Some?
      then Some(Boards.FreshnessOf(r.dashboard.value)) else None
    case UnknownMetric => None
  }

  function CheckMetric(things: seq<Thing>, places: seq<Place>, dashboards: seq<Boards.Dashboard>, r: RawMetric): Option<Boards.Metric> {
    var source := MetricSourceOf(things, places, dashboards, r);
    if ValidId(r.id) && source.Some? then Some(Boards.Metric(r.id, source.value)) else None
  }

  function MetricCheck(things: seq<Thing>, places: seq<Place>, dashboards: seq<Boards.Dashboard>): RawMetric -> Option<Boards.Metric> {
    r => CheckMetric(things, places, dashboards, r)
  }

  function CheckAlert(metrics: seq<Boards.Metric>, r: RawAlert): Option<Boards.Alert> {
    if ValidId(r.id) && Boards.FindMetric(metrics, r.metric).Some? && (r.test.OutOfRange? ==> r.test.min <= r.test.max) && r.severityKnown
    then Some(Boards.Alert(r.id, r.metric, r.test)) else None
  }

  function AlertCheck(metrics: seq<Boards.Metric>): RawAlert -> Option<Boards.Alert> { r => CheckAlert(metrics, r) }

  function BoardSection<R, T>(raws: seq<R>, check: R -> Option<T>, key: T -> string): Option<seq<T>> {
    if |raws| > MAX_BOARD_ITEMS then None else Listed(raws, check, key)
  }

  /** Dashboards first, then the metrics that may read them, then the alerts on metrics. */
  function CheckObservability(things: seq<Thing>, places: seq<Place>, r: RawObservability): Option<Boards.Observability> {
    var dashboards := BoardSection(r.dashboards, DashboardCheck(things), Boards.DashboardKey);
    if dashboards.None? then None
    else
      var metrics := BoardSection(r.metrics, MetricCheck(things, places, dashboards.value), Boards.MetricKey);
      if metrics.None? then None
      else
        var alerts := BoardSection(r.alerts, AlertCheck(metrics.value), Boards.AlertKey);
        if alerts.None? then None else Some(Boards.Observability(metrics.value, dashboards.value, alerts.value))
  }

  // ---- Agents and milestones ----

  /** What agents and milestones may refer to. */
  datatype Catalog = Catalog(
    things: seq<Thing>, places: seq<Place>, links: seq<Link>, transforms: seq<Transform>, demand: seq<Demand>, pressure: seq<Pressure>,
    objectives: seq<Goals.Objective>, failures: seq<Goals.Failure>, boards: Boards.Observability)

  predicate InScope(c: Catalog, t: Agents.Target) {
    match t
    case AtPlace(id) => Has(c.places, PlaceKey, id)
    case AtTransform(id) => Has(c.transforms, TransformKey, id)
    case AtDemand(id) => Has(c.demand, DemandKey, id)
    case AtDashboard(id) => Has(c.boards.dashboards, Boards.DashboardKey, id)
    case AtMetric(id) => Has(c.boards.metrics, Boards.MetricKey, id)
  }

  /** The words by which a scope entry and an action kind are written, and ordered. */
  function TargetKey(t: Agents.Target): string {
    match t
    case AtPlace(id) => "0:" + id
    case AtTransform(id) => "1:" + id
    case AtDemand(id) => "2:" + id
    case AtDashboard(id) => "3:" + id
    case AtMetric(id) => "4:" + id
  }

  function ActionKey(a: Agents.ActionKind): string {
    match a
    case SetJobPriority => "0"
    case ThrottleDemand => "1"
    case ScalePlaceCapacity => "2"
    case WarmCache => "3"
    case PrioritizeTransform => "4"
    case PauseReportRefresh => "5"
  }

  function ScopeCheck(c: Catalog): Option<Agents.Target> -> Option<Agents.Target> {
    (t: Option<Agents.Target>) => if t.Some? && InScope(c, t.value) then t else None
  }

  function KnownAction(a: Option<Agents.ActionKind>): Option<Agents.ActionKind> { a }

  predicate WeightsOk(c: Catalog, weights: map<Id, Option<real>>) {
    forall id :: id in weights ==> Fraction(weights[id]) && Has(c.objectives, Goals.ObjectiveKey, id)
  }

  function WeightsOf(weights: map<Id, Option<real>>): map<Id, real> {
    map id | id in weights && weights[id].Some? :: weights[id].value
  }

  function CheckAgent(c: Catalog, r: RawAgent): Option<Agents.Agent> {
    var scope, allowed := Listed(r.scope, ScopeCheck(c), TargetKey), Listed(r.allowed, KnownAction, ActionKey);
    if ValidId(r.id) && r.kind.Some? && NoneBlank(r.texts) && Within(r.interval, Agents.MAX_INTERVAL)
       && |r.scope| <= MAX_LIST && |r.allowed| <= MAX_LIST && |r.weights| <= MAX_LIST && WeightsOk(c, r.weights)
       && scope.Some? && allowed.Some? && r.maxCost > 0 && r.cooldown <= Agents.MAX_COOLDOWN
    then Some(Agents.Agent(r.id, r.kind.value, r.interval, scope.value, allowed.value, r.maxCost, r.cooldown, WeightsOf(r.weights))) else None
  }

  function AgentCheck(c: Catalog): RawAgent -> Option<Agents.Agent> { r => CheckAgent(c, r) }

  predicate Focusable(c: Catalog, agents: seq<Agents.Agent>, id: Id) {
    || Has(c.places, PlaceKey, id) || Has(c.links, LinkKey, id) || HasThing(c.things, id) || Has(c.transforms, TransformKey, id)
    || Has(c.demand, DemandKey, id) || Has(c.pressure, PressureKey, id) || Has(c.objectives, Goals.ObjectiveKey, id)
    || Has(c.failures, Goals.FailureKey, id) || Has(c.boards.metrics, Boards.MetricKey, id)
    || Has(c.boards.dashboards, Boards.DashboardKey, id) || Has(c.boards.alerts, Boards.AlertKey, id) || Has(agents, Agents.AgentKey, id)
  }

  predicate AllFocusable(c: Catalog, agents: seq<Agents.Agent>, ids: seq<Id>) {
    forall i :: 0 <= i < |ids| ==> !Blank(ids[i]) && Focusable(c, agents, ids[i])
  }

  predicate TriggerResolves(c: Catalog, t: Milestones.Trigger) {
    match t
    case PressureActivated(p) => Has(c.pressure, PressureKey, p)
    case PressureDeactivated(p) => Has(c.pressure, PressureKey, p)
    case MetricThreshold(m, _, _) => Has(c.boards.metrics, Boards.MetricKey, m)
    case DashboardShows(d, shown) => Has(c.boards.dashboards, Boards.DashboardKey, d) && shown in ["ok", "stale", "no_data"]
  }

  function CheckMilestone(c: Catalog, agents: seq<Agents.Agent>, r: RawMilestone): Option<Milestones.Milestone> {
    if ValidId(r.id) && NoneBlank(r.texts)
       && (r.focus.Some? ==> r.focus.value != [] && DistinctBy(r.focus.value, Self) && AllFocusable(c, agents, r.focus.value))
       && (r.highlight.Some? ==> !Blank(r.highlight.value) && Focusable(c, agents, r.highlight.value))
       && r.trigger.Some? && TriggerResolves(c, r.trigger.value)
    then Some(Milestones.Milestone(r.id, r.trigger.value, if r.focus.Some? then r.focus.value else [], r.highlight)) else None
  }

  function MilestoneCheck(c: Catalog, agents: seq<Agents.Agent>): RawMilestone -> Option<Milestones.Milestone> { r => CheckMilestone(c, agents, r) }

  // ---- The whole scene, section by section, each against the ones before it ----

  function CheckWorld(r: RawScene): Option<(seq<Thing>, seq<Place>, seq<Link>)> {
    var things := Section(r.things, CheckThing, ThingKey);
    if things.None? then None
    else
      var places := Section(r.places, PlaceCheck(things.value), PlaceKey);
      if places.None? then None
      else
        var links := Section(r.links, LinkCheck(things.value, places.value), LinkKey);
        if links.None? then None else Some((things.value, places.value, links.value))
  }

  function CheckWork(r: RawScene, things: seq<Thing>, places: seq<Place>, links: seq<Link>): Option<(seq<Transform>, seq<Demand>, seq<Pressure>)> {
    var transforms := Section(r.transforms, TransformCheck(things, places), TransformKey);
    var demand := Section(r.demand, DemandCheck(things, places), DemandKey);
    if transforms.None? || demand.None? then None
    else
      var pressure := Section(r.pressure, PressureCheck(things, places, demand.value, links), PressureKey);
      if pressure.None? then None else Some((transforms.value, demand.value, pressure.value))
  }

  function CheckRules(r: RawScene, things: seq<Thing>, places: seq<Place>, transforms: seq<Transform>, demand: seq<Demand>): Option<Goals.Rules> {
    var objectives := Section(r.objectives, ObjectiveCheck(things, places, transforms, demand), Goals.ObjectiveKey);
    if objectives.None? then None
    else
      var failures := Section(r.failures, FailureCheck(things, places, objectives.value), Goals.FailureKey);
      var victories := Section(r.victories, CheckVictory, Goals.VictoryKey);
      if failures.None? || victories.None? then None else Some(Goals.Rules(places, objectives.value, failures.value, victories.value))
  }

  function CheckBoards(r: RawScene, things: seq<Thing>, places: seq<Place>): Option<Option<Boards.Observability>> {
    match r.observability
    case None => Some(None)
    case Some(o) =>
      var boards := CheckObservability(things, places, o);
      if boards.None? then None else Some(boards)
  }

  function CheckCast(r: RawScene, c: Catalog): Option<(seq<Agents.Agent>, seq<Milestones.Milestone>)> {
    var agents := Section(r.agents, AgentCheck(c), Agents.AgentKey);
    if agents.None? then None
    else
      var milestones := Section(r.milestones, MilestoneCheck(c, agents.value), Milestones.MilestoneKey);
      if milestones.None? then None else Some((agents.value, milestones.value))
  }

  function ShownBoards(o: Option<Boards.Observability>): Boards.Observability { if o.Some? then o.value else NO_BOARDS }

  function FinishScene(
    r: RawScene, things: seq<Thing>, places: seq<Place>, links: seq<Link>, transforms: seq<Transform>, demand: seq<Demand>, pressure: seq<Pressure>)
    : Option<Scene>
  {
    var rules, boards := CheckRules(r, things, places, transforms, demand), CheckBoards(r, things, places);
    if rules.None? || boards.None? then None
    else
      var c := Catalog(things, places, links, transforms, demand, pressure, rules.value.objectives, rules.value.failures, ShownBoards(boards.value));
      var crew := CheckCast(r, c);
      if crew.None? then None
      else Some(Scene(things, places, links, transforms, demand, pressure, rules.value.objectives, rules.value.failures, rules.value.victories,
                      boards.value, crew.value.0, crew.value.1))
  }

  function FillWorld(r: RawScene, things: seq<Thing>, places: seq<Place>, links: seq<Link>): Option<Scene> {
    match CheckWork(r, things, places, links)
    case None => None
    case Some(work) => FinishScene(r, things, places, links, work.0, work.1, work.2)
  }

  function Validate(r: RawScene): Option<Scene> {
    if r.schemaVersion != SL1_SCHEMA_VERSION || r.extra != {} then None
    else match CheckWorld(r)
      case None => None
      case Some(world) => FillWorld(r, world.0, world.1, world.2)
  }
}
