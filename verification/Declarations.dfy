/** What a declaration says: when it is acceptable, and what an accepted scene carries of it. Both are told of the raw record alone. */
module Declarations {
  import opened Base
  import opened Text
  import opened Order
  import opened Sl1Scene
  import opened Loader
  import Goals
  import Boards
  import Agents
  import Milestones
  import opened Sl1State

  function RawThingId(x: RawThing): string { x.id }
  function RawPlaceId(x: RawPlace): string { x.id }
  function RawLinkId(x: RawLink): string { x.id }
  function RawTransformId(x: RawTransform): string { x.id }
  function RawDemandId(x: RawDemand): string { x.id }
  function RawPressureId(x: RawPressure): string { x.id }
  function RawObjectiveId(x: RawObjective): string { x.id }
  function RawFailureId(x: RawFailure): string { x.id }
  function RawVictoryId(x: RawVictory): string { x.id }
  function RawDashboardId(x: RawDashboard): string { x.id }
  function RawMetricId(x: RawMetric): string { x.id }
  function RawAlertId(x: RawAlert): string { x.id }
  function RawAgentId(x: RawAgent): string { x.id }
  function RawMilestoneId(x: RawMilestone): string { x.id }

  // ---- What an accepted entry carries ----

  predicate Same<T(==)>(a: seq<T>, b: seq<T>) { multiset(a) == multiset(b) }

  predicate CarriesContract(r: Option<RawContract>, c: Option<Contract>) {
    match (r, c)
    case (None, None) => true
    case (Some(x), Some(y)) =>
      (if x.maxDrop.Some? then y.maxDrop == x.maxDrop.value else y.maxDrop.None?) && y.maxLate == x.maxLate && Same(y.required, x.required)
    case _ => false
  }

  predicate CarriesThing(r: RawThing, t: Thing) {
    t.id == r.id && Same(t.tags, r.tags) && t.budget == r.budget && CarriesContract(r.contract, t.contract)
  }

  predicate CarriesPlace(r: RawPlace, p: Place) {
    p.id == r.id && p.capacity == r.capacity && p.storage == r.storage && p.states == r.states && Same(p.accepts, r.accepts) && Same(p.produces, r.produces)
  }

  predicate CarriesLink(r: RawLink, l: Link) {
    && l.id == r.id && l.from == r.from && l.to == r.to && Some(l.direction) == r.direction && Some(l.backpressure) == r.backpressure
    && l.capacity == r.capacity && l.travel == r.travel && l.queue == r.queue && Same(l.compatibility, r.compatibility)
  }

  predicate CarriesTransform(r: RawTransform, t: Transform) {
    && t.id == r.id && t.runsOn == r.runsOn && Same(t.inputs, r.inputs) && Same(t.outputs, r.outputs) && t.cost == r.cost
    && t.cadence == r.cadence && t.duration == r.duration && t.deadline == r.deadline && Some(t.policy) == r.policy && t.maxAttempts == r.maxAttempts
  }

  predicate CarriesSchedule(r: RawSchedule, s: Schedule) {
    match s
    case Fixed(every, start) => r.kind.FixedKind? && r.every == Some(every) && r.start == Some(start)
    case Scripted(ticks) => r.kind.ScriptedKind? && r.ticks == Some(ticks)
  }

  predicate CarriesDemand(r: RawDemand, d: Demand) {
    d.id == r.id && d.place == r.target && Same(d.needs, r.needs) && d.deadline == r.deadline && CarriesSchedule(r.schedule, d.schedule)
  }

  predicate CarriesPressure(r: RawPressure, p: Pressure) {
    && p.id == r.id && p.atTick == r.atTick && p.duration == r.duration && p.target == r.target
    && match p.params
       case SourceMultiplier(thing, milli) => r.kind.SourceKind? && r.thing == Some(thing) && r.milli == Some(milli)
       case DemandGrowth(spawn) => r.kind.GrowthKind? && r.spawn == Some(spawn)
       case QuotaReduction(bucket, percent) => r.kind.QuotaKind? && r.capacity == Some(bucket) && r.percent == Some(percent)
       case PathOutage => r.kind.OutageKind?
       case UnsupportedPressure(onThing) => if onThing then r.kind.SchemaDrift? else r.kind.OtherOnPlace?
  }

  predicate CarriesObjective(r: RawObjective, o: Goals.Objective) {
    && o.id == r.id
    && match o.params
       case KeepFresh(place, thing, maxStale) => r.kind.FreshKind? && r.place == Some(place) && r.thing == Some(thing) && r.maxStale == Some(maxStale)
       case CompleteJobs(demand, maxMissed) => r.kind.JobsKind? && r.demand == Some(demand) && r.maxMissed == Some(maxMissed)
       case MaintainUtilization(place, bucket, min, max) =>
         r.kind.UtilizationKind? && r.place == Some(place) && r.capacity == Some(bucket) && r.minPercent == Some(min) && r.maxPercent == Some(max)
       case UnsupportedObjective => r.kind.UnsupportedKind?
  }

  predicate CarriesFailure(r: RawFailure, f: Goals.Failure) {
    && f.id == r.id
    && match f.params
       case StaleTarget(place, thing, threshold, grace) =>
         r.kind.StaleKind? && r.place == Some(place) && r.thing == Some(thing) && r.threshold == Some(threshold) && CarriesGrace(r.grace, grace)
       case PlaceState(place, state, grace) => r.kind.StateKind? && r.place == Some(place) && r.state == Some(state) && CarriesGrace(r.grace, grace)
       case BreachCount(objective, maxCount) => r.kind.BreachKind? && r.objective == Some(objective) && r.maxCount == Some(maxCount)
  }

  /** A grace that is not declared is none. */
  predicate CarriesGrace(r: Option<u64>, grace: u64) { r == Some(grace) || (r.None? && grace == 0) }

  predicate CarriesVictory(r: RawVictory, v: Goals.Victory) { v.id == r.id && r.atTick == Some(v.atTick) }

  predicate CarriesDashboard(r: RawDashboard, d: Boards.Dashboard) { d.id == r.id && Same(d.dependsOn, r.dependsOn) && d.slo == r.slo }

  predicate CarriesMetric(r: RawMetric, m: Boards.Metric) {
    && m.id == r.id
    && match m.source
       case CapacityUsed(place, bucket) => r.kind.UsedKind? && r.place == Some(place) && r.capacity == Some(bucket)
       case InventoryOf(place, thing) => r.kind.CountKind? && r.place == Some(place) && r.thing == Some(thing)
       case FreshnessOf(dashboard) => r.kind.AgeKind? && r.dashboard == Some(dashboard)
  }

  predicate CarriesAlert(r: RawAlert, a: Boards.Alert) { a.id == r.id && a.metric == r.metric && a.test == r.test }

  ghost predicate CarriesAgent(r: RawAgent, a: Agents.Agent) {
    && a.id == r.id && Some(a.kind) == r.kind && a.interval == r.interval && a.maxCost == r.maxCost && a.cooldown == r.cooldown
    && (forall t :: t in a.scope <==> Some(t) in r.scope) && (forall k :: k in a.allowed <==> Some(k) in r.allowed)
    && a.weights.Keys == r.weights.Keys && (forall id :: id in a.weights ==> r.weights[id] == Some(a.weights[id]))
  }

  predicate CarriesMilestone(r: RawMilestone, m: Milestones.Milestone) {
    m.id == r.id && r.trigger == Some(m.trigger) && m.focus == (if r.focus.Some? then r.focus.value else []) && m.highlight == r.highlight
  }

  /** Every declared entry is carried by a loaded one. */
  ghost predicate AllCarried<R(!new), T(!new)>(raws: seq<R>, items: seq<T>, carries: (R, T) -> bool) {
    forall r :: r in raws ==> exists x :: x in items && carries(r, x)
  }

  /** Every loaded entry carries a declared one. */
  ghost predicate AllDeclared<R(!new), T(!new)>(raws: seq<R>, items: seq<T>, carries: (R, T) -> bool) {
    forall x :: x in items ==> exists r :: r in raws && carries(r, x)
  }

  /** The entries of a section and those declared are the same, one for one. */
  ghost predicate Paired<R(!new), T(!new)>(raws: seq<R>, items: seq<T>, carries: (R, T) -> bool) {
    |items| == |raws| && AllCarried(raws, items, carries) && AllDeclared(raws, items, carries)
  }

  ghost predicate PairedBoards(r: Option<RawObservability>, o: Option<Boards.Observability>) {
    match (r, o)
    case (None, None) => true
    case (Some(x), Some(y)) => Paired(x.dashboards, y.dashboards, CarriesDashboard) && Paired(x.metrics, y.metrics, CarriesMetric) && Paired(x.alerts, y.alerts, CarriesAlert)
    case _ => false
  }

  ghost predicate Carries(r: RawScene, s: Scene) {
    && Paired(r.things, s.things, CarriesThing) && Paired(r.places, s.places, CarriesPlace) && Paired(r.links, s.links, CarriesLink)
    && Paired(r.transforms, s.transforms, CarriesTransform) && Paired(r.demand, s.demand, CarriesDemand) && Paired(r.pressure, s.pressure, CarriesPressure)
    && Paired(r.objectives, s.objectives, CarriesObjective) && Paired(r.failures, s.failures, CarriesFailure) && Paired(r.victories, s.victories, CarriesVictory)
    && PairedBoards(r.observability, s.observability)
    && Paired(r.agents, s.agents, CarriesAgent) && Paired(r.milestones, s.milestones, CarriesMilestone)
  }

  // ---- When a declaration is acceptable ----

  const TICKS: nat := 1_000_000_000
  const AMOUNT: nat := 1_000_000_000

  predicate UpTo(v: u64, most: nat) { 1 <= v <= most }

  /** Words that are not blank, each once. */
  predicate Words(ws: seq<string>) { NoneBlank(ws) && DistinctBy(ws, Self) }

  predicate IsThing(r: RawScene, id: Id) { Has(r.things, RawThingId, id) }
  predicate IsPlace(r: RawScene, id: Id) { Has(r.places, RawPlaceId, id) }
  predicate IsDemand(r: RawScene, id: Id) { Has(r.demand, RawDemandId, id) }

  /** A declared thing, or a tag of one. */
  predicate Named(r: RawScene, name: Id) { IsThing(r, name) || exists i :: 0 <= i < |r.things| && name in r.things[i].tags }

  predicate StoredAt(r: RawScene, place: Id, thing: Id) { exists p :: p in r.places && p.id == place && thing in p.storage }
  predicate BucketAt(r: RawScene, place: Id, name: Id) { exists p :: p in r.places && p.id == place && name in p.capacity }
  predicate PercentStateAt(r: RawScene, place: Id, state: Id) {
    exists p :: p in r.places && p.id == place && state in p.states && p.states[state].UsedPercentGte?
  }

  predicate GoodContract(c: RawContract) {
    && (c.maxDrop.Some? ==> c.maxDrop.value.Some? && 0.0 <= c.maxDrop.value.value <= 1.0)
    && (c.maxLate.Some? ==> UpTo(c.maxLate.value, TICKS)) && Words(c.required)
  }

  predicate GoodThing(x: RawThing) {
    && ValidId(x.id) && NoneBlank(x.texts) && Words(x.tags) && x.schemaVersion != Some(0)
    && (x.budget.Some? ==> UpTo(x.budget.value, TICKS)) && (x.contract.Some? ==> GoodContract(x.contract.value))
  }

  predicate GoodPlace(r: RawScene, x: RawPlace) {
    && ValidId(x.id) && NoneBlank(x.texts) && x.posOk && (forall k :: k in x.capacity ==> !Blank(k))
    && (forall k :: k in x.storage ==> !Blank(k) && IsThing(r, k) && 0 < x.storage[k].capacity && x.storage[k].initial <= x.storage[k].capacity)
    && Words(x.accepts) && Words(x.produces) && Words(x.failureDomains)
    && (forall w :: w in x.accepts ==> Named(r, w)) && (forall w :: w in x.produces ==> Named(r, w))
    && (forall k :: k in x.states ==> !Blank(k))
    && (forall k :: k in x.states && x.states[k].UsedPercentGte? ==>
          ValidId(x.states[k].bucket) && x.states[k].bucket in x.capacity && x.states[k].threshold <= 100)
  }

  predicate GoodLink(r: RawScene, x: RawLink) {
    && ValidId(x.id) && NoneBlank(x.texts) && IsPlace(r, x.from) && IsPlace(r, x.to) && x.from != x.to
    && x.direction.Some? && x.backpressure.Some? && (forall k :: k in x.capacity ==> !Blank(k))
    && UpTo(x.travel, TICKS) && UpTo(x.queue, AMOUNT) && Words(x.compatibility) && (forall w :: w in x.compatibility ==> Named(r, w))
  }

  /** Amounts of declared things, each named once. */
  predicate GoodItems(r: RawScene, items: seq<Item>) {
    DistinctBy(items, ItemKey) && forall i :: i in items ==> IsThing(r, i.name) && UpTo(i.amount, AMOUNT)
  }

  predicate GoodTransform(r: RawScene, x: RawTransform) {
    && ValidId(x.id) && NoneBlank(x.texts) && IsPlace(r, x.runsOn) && GoodItems(r, x.inputs) && GoodItems(r, x.outputs) && x.outputs != []
    && UpTo(x.cadence, TICKS) && UpTo(x.duration, TICKS) && UpTo(x.deadline, TICKS) && x.duration <= x.deadline
    && (forall i :: i in x.cost ==> !Blank(i.name) && UpTo(i.amount, AMOUNT) && BucketAt(r, x.runsOn, i.name))
    && x.policy.Some? && UpTo(x.maxAttempts, 1_000)
  }

  predicate GoodSchedule(s: RawSchedule) {
    match s.kind
    case FixedKind => s.ticks.None? && s.every.Some? && s.start.Some? && UpTo(s.every.value, TICKS) && UpTo(s.start.value, TICKS)
    case ScriptedKind =>
      && s.every.None? && s.start.None? && s.ticks.Some? && 1 <= |s.ticks.value| <= 100_000
      && (forall t :: t in s.ticks.value ==> UpTo(t, TICKS)) && (forall i, j :: 0 <= i < j < |s.ticks.value| ==> s.ticks.value[i] < s.ticks.value[j])
    case OtherSchedule => false
  }

  predicate GoodDemand(r: RawScene, x: RawDemand) {
    && ValidId(x.id) && NoneBlank(x.texts) && x.onPlace && IsPlace(r, x.target) && 1 <= |x.needs| <= 64
    && DistinctBy(x.needs, Self) && (forall n :: n in x.needs ==> IsThing(r, n)) && GoodSchedule(x.schedule) && UpTo(x.deadline, TICKS)
    && x.priorityKnown && x.value <= AMOUNT && -1_000_000_000 <= x.penalty <= 0
  }

  predicate GoodPressure(r: RawScene, x: RawPressure) {
    && ValidId(x.id) && UpTo(x.duration, TICKS) && x.atTick <= TICKS && x.atTick + x.duration <= TICKS && !Blank(x.target)
    && (x.thing.Some? <==> x.kind.SourceKind?) && (x.milli.Some? <==> x.kind.SourceKind?) && (x.spawn.Some? <==> x.kind.GrowthKind?)
    && (x.capacity.Some? <==> x.kind.QuotaKind?) && (x.percent.Some? <==> x.kind.QuotaKind?)
    && match x.kind
       case SourceKind => IsThing(r, x.thing.value) && StoredAt(r, x.target, x.thing.value) && UpTo(x.milli.value, 1_000_000)
       case GrowthKind => IsDemand(r, x.target) && UpTo(x.spawn.value, 64)
       case QuotaKind => BucketAt(r, x.target, x.capacity.value) && 1 <= x.percent.value <= 100
       case OutageKind => Has(r.links, RawLinkId, x.target)
       case SchemaDrift => IsThing(r, x.target)
       case OtherOnPlace => IsPlace(r, x.target)
       case UnknownPressure => false
  }

  /** What the supported kinds leave undeclared. */
  predicate NoOtherLimits(x: RawObjective) { x.maxCost.None? && x.maxViolations.None? && x.p95.None? && x.target.None? }

  predicate GoodObjective(r: RawScene, x: RawObjective) {
    && ValidId(x.id) && (x.weight.Some? ==> UpTo(x.weight.value, 10_000))
    && match x.kind
       case FreshKind =>
         && x.place.Some? && x.thing.Some? && x.maxStale.Some? && UpTo(x.maxStale.value, 1_000_000)
         && IsThing(r, x.thing.value) && StoredAt(r, x.place.value, x.thing.value)
         && x.demand.None? && x.maxMissed.None? && x.capacity.None? && x.minPercent.None? && x.maxPercent.None? && NoOtherLimits(x)
       case JobsKind =>
         && x.demand.Some? && x.maxMissed.Some? && UpTo(x.maxMissed.value, 1_000_000) && IsDemand(r, x.demand.value)
         && x.place.None? && x.thing.None? && x.maxStale.None? && x.capacity.None? && x.minPercent.None? && x.maxPercent.None? && NoOtherLimits(x)
       case UtilizationKind =>
         && x.place.Some? && x.capacity.Some? && x.minPercent.Some? && x.maxPercent.Some? && x.minPercent.value <= x.maxPercent.value <= 100
         && BucketAt(r, x.place.value, x.capacity.value)
         && x.thing.None? && x.maxStale.None? && x.demand.None? && x.maxMissed.None? && NoOtherLimits(x)
       case UnsupportedKind =>
         && (x.maxCost.Some? ==> UpTo(x.maxCost.value, 1_000_000)) && (x.maxViolations.Some? ==> UpTo(x.maxViolations.value, 1_000_000))
         && (x.p95.Some? ==> UpTo(x.p95.value, 1_000_000))
         && (x.target.Some? ==> IsPlace(r, x.target.value) || IsThing(r, x.target.value) || IsDemand(r, x.target.value) || Has(r.transforms, RawTransformId, x.target.value))
       case UnknownObjective => false
  }

  predicate GoodFailure(r: RawScene, x: RawFailure) {
    && ValidId(x.id)
    && (x.place.Some? <==> x.kind.StaleKind? || x.kind.StateKind?) && (x.thing.Some? <==> x.kind.StaleKind?) && (x.threshold.Some? <==> x.kind.StaleKind?)
    && (x.state.Some? <==> x.kind.StateKind?) && (x.objective.Some? <==> x.kind.BreachKind?) && (x.maxCount.Some? <==> x.kind.BreachKind?)
    && (x.grace.Some? ==> !x.kind.BreachKind? && x.grace.value <= 1_000_000)
    && match x.kind
       case StaleKind => UpTo(x.threshold.value, 1_000_000) && IsThing(r, x.thing.value) && StoredAt(r, x.place.value, x.thing.value)
       case StateKind => PercentStateAt(r, x.place.value, x.state.value)
       case BreachKind => UpTo(x.maxCount.value, 1_000_000) && Has(r.objectives, RawObjectiveId, x.objective.value)
       case UnknownFailure => false
  }

  predicate GoodVictory(x: RawVictory) { ValidId(x.id) && x.survive && x.atTick.Some? && UpTo(x.atTick.value, 1_000_000) }

  predicate GoodDashboard(r: RawScene, x: RawDashboard) {
    ValidId(x.id) && x.kindKnown && x.slo > 0 && Words(x.dependsOn) && forall d :: d in x.dependsOn ==> IsThing(r, d)
  }

  predicate GoodMetric(r: RawScene, o: RawObservability, x: RawMetric) {
    && ValidId(x.id)
    && (x.place.Some? <==> x.kind.UsedKind? || x.kind.CountKind?) && (x.capacity.Some? <==> x.kind.UsedKind?)
    && (x.thing.Some? <==> x.kind.CountKind?) && (x.dashboard.Some? <==> x.kind.AgeKind?)
    && match x.kind
       case UsedKind => BucketAt(r, x.place.value, x.capacity.value)
       case CountKind => IsThing(r, x.thing.value) && StoredAt(r, x.place.value, x.thing.value)
       case AgeKind => Has(o.dashboards, RawDashboardId, x.dashboard.value)
       case UnknownMetric => false
  }

  predicate GoodAlert(o: RawObservability, x: RawAlert) {
    ValidId(x.id) && Has(o.metrics, RawMetricId, x.metric) && (x.test.OutOfRange? ==> x.test.min <= x.test.max) && x.severityKnown
  }

  predicate InScopeOf(r: RawScene, t: Agents.Target) {
    match t
    case AtPlace(id) => IsPlace(r, id)
    case AtTransform(id) => Has(r.transforms, RawTransformId, id)
    case AtDemand(id) => IsDemand(r, id)
    case AtDashboard(id) => r.observability.Some? && Has(r.observability.value.dashboards, RawDashboardId, id)
    case AtMetric(id) => r.observability.Some? && Has(r.observability.value.metrics, RawMetricId, id)
  }

  predicate Once<T(==)>(xs: seq<T>) { forall i, j :: 0 <= i < j < |xs| ==> xs[i] != xs[j] }

  predicate GoodAgent(r: RawScene, x: RawAgent) {
    && ValidId(x.id) && x.kind.Some? && NoneBlank(x.texts) && UpTo(x.interval, 1_000_000) && x.maxCost > 0 && x.cooldown <= 1_000_000
    && |x.scope| <= 256 && Once(x.scope) && (forall t :: t in x.scope ==> t.Some? && InScopeOf(r, t.value))
    && |x.allowed| <= 256 && Once(x.allowed) && (forall k :: k in x.allowed ==> k.Some?)
    && |x.weights| <= 256 && (forall id :: id in x.weights ==> Has(r.objectives, RawObjectiveId, id) && x.weights[id].Some? && 0.0 <= x.weights[id].value <= 1.0)
  }

  /** Something a viewer can be shown. */
  predicate Visible(r: RawScene, id: Id) {
    || IsPlace(r, id) || Has(r.links, RawLinkId, id) || IsThing(r, id) || Has(r.transforms, RawTransformId, id) || IsDemand(r, id)
    || Has(r.pressure, RawPressureId, id) || Has(r.objectives, RawObjectiveId, id) || Has(r.failures, RawFailureId, id) || Has(r.agents, RawAgentId, id)
    || (r.observability.Some? && (Has(r.observability.value.metrics, RawMetricId, id) || Has(r.observability.value.dashboards, RawDashboardId, id)
                                  || Has(r.observability.value.alerts, RawAlertId, id)))
  }

  predicate GoodTrigger(r: RawScene, t: Milestones.Trigger) {
    match t
    case PressureActivated(p) => Has(r.pressure, RawPressureId, p)
    case PressureDeactivated(p) => Has(r.pressure, RawPressureId, p)
    case MetricThreshold(m, _, _) => r.observability.Some? && Has(r.observability.value.metrics, RawMetricId, m)
    case DashboardShows(d, shown) => r.observability.Some? && Has(r.observability.value.dashboards, RawDashboardId, d) && shown in ["ok", "stale", "no_data"]
  }

  predicate GoodMilestone(r: RawScene, x: RawMilestone) {
    && ValidId(x.id) && NoneBlank(x.texts) && x.trigger.Some? && GoodTrigger(r, x.trigger.value)
    && (x.focus.Some? ==> x.focus.value != [] && Words(x.focus.value) && forall id :: id in x.focus.value ==> Visible(r, id))
    && (x.highlight.Some? ==> !Blank(x.highlight.value) && Visible(r, x.highlight.value))
  }

  // Each test as a value, so that it can be handed to GoodList.

  function PlaceTest(r: RawScene): RawPlace -> bool { x => GoodPlace(r, x) }
  function LinkTest(r: RawScene): RawLink -> bool { x => GoodLink(r, x) }
  function TransformTest(r: RawScene): RawTransform -> bool { x => GoodTransform(r, x) }
  function DemandTest(r: RawScene): RawDemand -> bool { x => GoodDemand(r, x) }
  function PressureTest(r: RawScene): RawPressure -> bool { x => GoodPressure(r, x) }
  function ObjectiveTest(r: RawScene): RawObjective -> bool { x => GoodObjective(r, x) }
  function FailureTest(r: RawScene): RawFailure -> bool { x => GoodFailure(r, x) }
  function AgentTest(r: RawScene): RawAgent -> bool { x => GoodAgent(r, x) }
  function MilestoneTest(r: RawScene): RawMilestone -> bool { x => GoodMilestone(r, x) }
  function DashboardTest(r: RawScene): RawDashboard -> bool { x => GoodDashboard(r, x) }
  function MetricTest(r: RawScene, o: RawObservability): RawMetric -> bool { x => GoodMetric(r, o, x) }
  function AlertTestOf(o: RawObservability): RawAlert -> bool { x => GoodAlert(o, x) }

  /** At most so many entries, no id twice, every one good. */
  predicate GoodList<R(==)>(xs: seq<R>, most: nat, id: R -> string, good: R -> bool) {
    |xs| <= most && DistinctBy(xs, id) && forall x :: x in xs ==> good(x)
  }

  predicate GoodWorld(r: RawScene) {
    && GoodList(r.things, 100_000, RawThingId, GoodThing)
    && GoodList(r.places, 100_000, RawPlaceId, PlaceTest(r))
    && GoodList(r.links, 100_000, RawLinkId, LinkTest(r))
  }

  predicate GoodWork(r: RawScene) {
    && GoodList(r.transforms, 100_000, RawTransformId, TransformTest(r))
    && GoodList(r.demand, 100_000, RawDemandId, DemandTest(r))
    && GoodList(r.pressure, 100_000, RawPressureId, PressureTest(r))
  }

  predicate GoodRules(r: RawScene) {
    && GoodList(r.objectives, 100_000, RawObjectiveId, ObjectiveTest(r))
    && GoodList(r.failures, 100_000, RawFailureId, FailureTest(r))
    && GoodList(r.victories, 100_000, RawVictoryId, GoodVictory)
  }

  predicate GoodBoards(r: RawScene) {
    r.observability.Some? ==>
      var o := r.observability.value;
      && GoodList(o.dashboards, 1_000, RawDashboardId, DashboardTest(r))
      && GoodList(o.metrics, 1_000, RawMetricId, MetricTest(r, o))
      && GoodList(o.alerts, 1_000, RawAlertId, AlertTestOf(o))
  }

  predicate GoodCast(r: RawScene) {
    && GoodList(r.agents, 100_000, RawAgentId, AgentTest(r))
    && GoodList(r.milestones, 100_000, RawMilestoneId, MilestoneTest(r))
  }

  /** The current schema, nothing unknown, and every section good. */
  predicate Acceptable(r: RawScene) {
    r.schemaVersion == 1 && r.extra == {} && GoodWorld(r) && GoodWork(r) && GoodRules(r) && GoodBoards(r) && GoodCast(r)
  }
}
