/** Dashboards, metrics and alerts: what is shown, and which edges are announced. */
module Boards {
  import opened Base
  import opened Order
  import opened Sl1Scene
  import opened Plants
  import opened Goals

  datatype Dashboard = Dashboard(id: Id, dependsOn: seq<Id>, slo: u64)
  datatype MetricSource = CapacityUsed(place: Id, bucket: Id) | InventoryOf(place: Id, thing: Id) | FreshnessOf(dashboard: Id)
  datatype Metric = Metric(id: Id, source: MetricSource)
  datatype AlertTest = Gt(threshold: u64) | Lt(threshold: u64) | OutOfRange(min: u64, max: u64) {
    predicate Fires(v: u64) {
      match this
      case Gt(t) => v > t
      case Lt(t) => v < t
      case OutOfRange(lo, hi) => v < lo || v > hi
    }
  }
  datatype Alert = Alert(id: Id, metric: Id, test: AlertTest)
  datatype Observability = Observability(metrics: seq<Metric>, dashboards: seq<Dashboard>, alerts: seq<Alert>)

  datatype MetricState = Value(value: u64) | Unmeasured
  datatype BoardStatus = Fresh | Lagging(age: u64) | Missing {
    function Label(): string {
      match this case Fresh => "ok" case Lagging(_) => "stale" case Missing => "no_data"
    }
  }
  datatype AlertState = Inactive | Firing(since: u64)

  datatype BoardEvent =
    | BoardChanged(id: Id, from: string, to: string, tick: u64, age: Option<u64>)
    | AlertFired(id: Id, metric: Id, value: u64, tick: u64)
    | AlertCleared(id: Id, metric: Id, tick: u64)

  datatype BoardState = BoardState(
    metrics: map<Id, MetricState>, dashboards: map<Id, BoardStatus>, alerts: map<Id, AlertState>,
    events: seq<BoardEvent>)

  /** What observability reads of the rest of the runtime. */
  datatype View = View(stamps: map<Slot, Freshness>, used: map<Bucket, u64>, inv: map<Slot, u64>)

  function MetricKey(m: Metric): string { m.id }
  function DashboardKey(d: Dashboard): string { d.id }
  function AlertKey(a: Alert): string { a.id }

  function FindDashboard(ds: seq<Dashboard>, id: Id): (r: Option<Dashboard>)
    ensures r.Some? ==> r.value in ds && r.value.id == id
    ensures r.None? ==> forall d :: d in ds ==> d.id != id
  {
    if ds == [] then None else if ds[0].id == id then Some(ds[0]) else FindDashboard(ds[1..], id)
  }

  function FindMetric(ms: seq<Metric>, id: Id): (r: Option<Metric>)
    ensures r.Some? ==> r.value in ms && r.value.id == id
    ensures r.None? ==> forall m :: m in ms ==> m.id != id
  {
    if ms == [] then None else if ms[0].id == id then Some(ms[0]) else FindMetric(ms[1..], id)
  }

  /** What the loader guarantees: canonical lists, and references that resolve. */
  ghost predicate BoardsOk(o: Observability, places: seq<Place>) {
    && SortedBy(o.metrics, MetricKey) && SortedBy(o.dashboards, DashboardKey) && SortedBy(o.alerts, AlertKey)
    && (forall m :: m in o.metrics && m.source.FreshnessOf? ==> FindDashboard(o.dashboards, m.source.dashboard).Some?)
    && (forall m :: m in o.metrics && m.source.CapacityUsed? ==> FindPlace(places, m.source.place).Some?)
    && (forall a :: a in o.alerts ==> FindMetric(o.metrics, a.metric).Some?)
  }

  // ---- How stale a dashboard is ----

  predicate Timed(f: Freshness) { f.Ok? || f.Stale? }

  /** The ages at which `thing` was last seen, place by place. */
  ghost function Ages(stamps: map<Slot, Freshness>, thing: Id, now: u64): set<u64> {
    set s | s in stamps && s.1 == thing && Timed(stamps[s]) :: SatSub(now, stamps[s].lastSet)
  }

  function Least(age: Option<u64>, other: u64): Option<u64> {
    Some(if age.Some? then Min(age.value, other) else other)
  }

  ghost predicate IsLeast(ages: set<u64>, m: Option<u64>) {
    match m
    case None => ages == {}
    case Some(a) => a in ages && forall b :: b in ages ==> a <= b
  }

  lemma {:induction false} LeastExists(ages: set<u64>)
    ensures exists m :: IsLeast(ages, m)
  {
    if ages == {} {
      assert IsLeast(ages, None);
    } else {
      var x :| x in ages;
      LeastExists(ages - {x});
      var m :| IsLeast(ages - {x}, m);
      var least := Least(m, x);
      assert ages == (ages - {x}) + {x};
      forall b | b in ages ensures least.value <= b {
        assert b == x || b in ages - {x};
      }
      assert IsLeast(ages, least);
    }
  }

  /** The age of the freshest copy of `thing` anywhere; none if it was never seen. */
  ghost function FreshestCopy(stamps: map<Slot, Freshness>, thing: Id, now: u64): (m: Option<u64>)
    ensures IsLeast(Ages(stamps, thing, now), m)
  {
    LeastExists(Ages(stamps, thing, now));
    var m :| IsLeast(Ages(stamps, thing, now), m);
    m
  }

  /** The worst of those ages over the first k dependencies; none as soon as one was never seen. */
  ghost function WorstFirst(deps: seq<Id>, k: nat, stamps: map<Slot, Freshness>, now: u64): Option<u64>
    requires k <= |deps|
  {
    if k == 0 then Some(0)
    else
      var before, copy := WorstFirst(deps, k - 1, stamps, now), FreshestCopy(stamps, deps[k - 1], now);
      if before.None? || copy.None? then None else Some(Max(before.value, copy.value))
  }

  ghost function Staleness(d: Dashboard, stamps: map<Slot, Freshness>, now: u64): Option<u64> {
    WorstFirst(d.dependsOn, |d.dependsOn|, stamps, now)
  }

  ghost predicate SeenWithin(ages: set<u64>, age: u64) { exists a :: a in ages && a <= age }

  /** Every one of the first k dependencies was seen within `age` ticks, and one of them not within fewer. */
  ghost predicate TightFor(deps: seq<Id>, k: nat, stamps: map<Slot, Freshness>, now: u64, age: u64)
    requires k <= |deps|
  {
    && (forall i :: 0 <= i < k ==> SeenWithin(Ages(stamps, deps[i], now), age))
    && (age > 0 ==> exists i :: 0 <= i < k && !SeenWithin(Ages(stamps, deps[i], now), age - 1))
  }

  lemma {:induction false} WorstMissing(deps: seq<Id>, k: nat, stamps: map<Slot, Freshness>, now: u64)
    requires k <= |deps|
    ensures WorstFirst(deps, k, stamps, now).None? <==> exists i :: 0 <= i < k && Ages(stamps, deps[i], now) == {}
  {
    if k > 0 {
      WorstMissing(deps, k - 1, stamps, now);
      hide Ages;
      var copy := FreshestCopy(stamps, deps[k - 1], now);
      assert copy.None? <==> Ages(stamps, deps[k - 1], now) == {};
    }
  }

  lemma {:induction false} WorstIsTight(deps: seq<Id>, k: nat, stamps: map<Slot, Freshness>, now: u64)
    requires k <= |deps| && WorstFirst(deps, k, stamps, now).Some?
    ensures TightFor(deps, k, stamps, now, WorstFirst(deps, k, stamps, now).value)
  {
    hide Ages;
    if k > 0 {
      WorstIsTight(deps, k - 1, stamps, now);
      var before, copy := WorstFirst(deps, k - 1, stamps, now).value, FreshestCopy(stamps, deps[k - 1], now).value;
      var worst := WorstFirst(deps, k, stamps, now).value;
      forall i | 0 <= i < k ensures SeenWithin(Ages(stamps, deps[i], now), worst) {
        if i < k - 1 {
          var a :| a in Ages(stamps, deps[i], now) && a <= before;
        } else {
          assert copy in Ages(stamps, deps[i], now);
        }
      }
      if worst > 0 && worst == before {
        var i :| 0 <= i < k - 1 && !SeenWithin(Ages(stamps, deps[i], now), before - 1);
      } else if worst > 0 {
        assert !SeenWithin(Ages(stamps, deps[k - 1], now), worst - 1);
      }
    }
  }

  /**
   * A dashboard has no reading exactly when some dependency was never seen anywhere; otherwise its reading is
   * the least age within which every dependency was seen at some place.
   */
  lemma StalenessMeans(d: Dashboard, stamps: map<Slot, Freshness>, now: u64)
    ensures Staleness(d, stamps, now).None? <==> exists i :: 0 <= i < |d.dependsOn| && Ages(stamps, d.dependsOn[i], now) == {}
    ensures Staleness(d, stamps, now).Some? ==> TightFor(d.dependsOn, |d.dependsOn|, stamps, now, Staleness(d, stamps, now).value)
  {
    WorstMissing(d.dependsOn, |d.dependsOn|, stamps, now);
    if Staleness(d, stamps, now).Some? {
      WorstIsTight(d.dependsOn, |d.dependsOn|, stamps, now);
    }
  }

  lemma LeastUnique(ages: set<u64>, m: Option<u64>, n: Option<u64>)
    requires IsLeast(ages, m) && IsLeast(ages, n)
    ensures m == n
  {
  }

  /** The inner loop: the freshest copy of one thing, over the freshness map. */
  method FindFreshest(stamps: map<Slot, Freshness>, thing: Id, now: u64) returns (least: Option<u64>)
    ensures least == FreshestCopy(stamps, thing, now)
  {
    least := None;
    var rest := stamps.Keys;
    ghost var seen: set<u64> := {};
    while rest != {}
      invariant rest <= stamps.Keys
      invariant seen == set s | s in stamps && s !in rest && s.1 == thing && Timed(stamps[s]) :: SatSub(now, stamps[s].lastSet)
      invariant IsLeast(seen, least)
      decreases rest
    {
      var s :| s in rest;
      rest := rest - {s};
      if s.1 == thing && Timed(stamps[s]) {
        var age := SatSub(now, stamps[s].lastSet);
        least := Least(least, age);
        seen := seen + {age};
      }
    }
    assert seen == Ages(stamps, thing, now);
    LeastUnique(seen, least, FreshestCopy(stamps, thing, now));
  }

  /** The two nested loops of the source, with its early exit. */
  method DashboardFreshness(d: Dashboard, stamps: map<Slot, Freshness>, now: u64) returns (r: Option<u64>)
    ensures r == Staleness(d, stamps, now)
  {
    if |d.dependsOn| == 0 { return Some(0); }
    var worst: u64 := 0;
    var i := 0;
    while i < |d.dependsOn|
      invariant i <= |d.dependsOn|
      invariant WorstFirst(d.dependsOn, i, stamps, now) == Some(worst)
    {
      var least := FindFreshest(stamps, d.dependsOn[i], now);
      match least {
        case None =>
          NeverSeen(d.dependsOn, i, |d.dependsOn|, stamps, now);
          return None;
        case Some(a) => worst := Max(worst, a);
      }
      i := i + 1;
    }
    return Some(worst);
  }

  lemma {:induction false} NeverSeen(deps: seq<Id>, i: nat, k: nat, stamps: map<Slot, Freshness>, now: u64)
    requires i < k <= |deps| && FreshestCopy(stamps, deps[i], now).None?
    ensures WorstFirst(deps, k, stamps, now).None?
  {
    if i < k - 1 { NeverSeen(deps, i, k - 1, stamps, now); }
  }

  // ---- One tick ----

  ghost function StatusOf(d: Dashboard, stamps: map<Slot, Freshness>, now: u64): BoardStatus {
    match Staleness(d, stamps, now)
    case None => Missing
    case Some(age) => if age > d.slo then Lagging(age) else Fresh
  }

  ghost function Measure(o: Observability, places: seq<Place>, m: Metric, v: View, now: u64): MetricState {
    match m.source
    case CapacityUsed(place, bucket) => Value(Percent(places, v.used, place, bucket))
    case InventoryOf(place, thing) => Value(Get(v.inv, (place, thing)))
    case FreshnessOf(id) =>
      match FindDashboard(o.dashboards, id)
      case None => Unmeasured
      case Some(d) => match Staleness(d, v.stamps, now) case None => Unmeasured case Some(age) => Value(age)
  }

  function BoardOf(b: BoardState, id: Id): BoardStatus { if id in b.dashboards then b.dashboards[id] else Missing }
  function MetricOf(b: BoardState, id: Id): MetricState { if id in b.metrics then b.metrics[id] else Unmeasured }
  function AlertOf(b: BoardState, id: Id): AlertState { if id in b.alerts then b.alerts[id] else Inactive }

  function AgeShown(s: BoardStatus): Option<u64> { if s.Lagging? then Some(s.age) else None }

  /** A dashboard is announced when its label changes, not when a stale one grows staler. */
  function Turn(id: Id, was: BoardStatus, s: BoardStatus, now: u64): seq<BoardEvent> {
    if was.Label() == s.Label() then [] else [BoardChanged(id, was.Label(), s.Label(), now, AgeShown(s))]
  }

  function ShowBoard(b: BoardState, id: Id, s: BoardStatus, now: u64): BoardState {
    b.(dashboards := b.dashboards[id := s], events := b.events + Turn(id, BoardOf(b, id), s, now))
  }

  predicate Sounds(a: Alert, m: MetricState) { m.Value? && a.test.Fires(m.value) }

  function NextAlert(a: Alert, was: AlertState, m: MetricState, now: u64): AlertState {
    if !Sounds(a, m) then Inactive else if was.Firing? then was else Firing(now)
  }

  /** What is announced when the reading of an alert goes from `was` to `is`. */
  function Edge(a: Alert, was: bool, m: MetricState, now: u64): seq<BoardEvent> {
    if !was && Sounds(a, m) then [AlertFired(a.id, a.metric, m.value, now)]
    else if was && !Sounds(a, m) then [AlertCleared(a.id, a.metric, now)]
    else []
  }

  function JudgeAlert(a: Alert, b: BoardState, now: u64): BoardState {
    var m, was := MetricOf(b, a.metric), AlertOf(b, a.id);
    b.(alerts := b.alerts[a.id := NextAlert(a, was, m, now)], events := b.events + Edge(a, was.Firing?, m, now))
  }

  ghost function ShowFirst(o: Observability, k: nat, b: BoardState, v: View, now: u64): BoardState
    requires k <= |o.dashboards|
  {
    if k == 0 then b
    else ShowBoard(ShowFirst(o, k - 1, b, v, now), o.dashboards[k - 1].id, StatusOf(o.dashboards[k - 1], v.stamps, now), now)
  }

  ghost function MeasureFirst(o: Observability, places: seq<Place>, k: nat, b: BoardState, v: View, now: u64): BoardState
    requires k <= |o.metrics|
  {
    if k == 0 then b
    else
      var before := MeasureFirst(o, places, k - 1, b, v, now);
      before.(metrics := before.metrics[o.metrics[k - 1].id := Measure(o, places, o.metrics[k - 1], v, now)])
  }

  function AlertFirst(o: Observability, k: nat, b: BoardState, now: u64): BoardState
    requires k <= |o.alerts|
  {
    if k == 0 then b else JudgeAlert(o.alerts[k - 1], AlertFirst(o, k - 1, b, now), now)
  }

  ghost function BoardTick(o: Observability, places: seq<Place>, b: BoardState, v: View, now: u64): BoardState {
    var b1 := ShowFirst(o, |o.dashboards|, b, v, now);
    var b2 := MeasureFirst(o, places, |o.metrics|, b1, v, now);
    AlertFirst(o, |o.alerts|, b2, now)
  }

  function FreshBoards(o: Observability): BoardState {
    BoardState(map m | m in o.metrics :: m.id := Unmeasured,
               map d | d in o.dashboards :: d.id := Missing,
               map a | a in o.alerts :: a.id := Inactive, [])
  }
}
