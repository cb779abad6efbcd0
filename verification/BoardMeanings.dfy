/** What dashboards, metrics and alerts show, told from deliveries, initial stock, stock and what is running. */
module BoardMeanings {
  import opened Base
  import opened Order
  import opened Sl1Scene
  import opened Plants
  import opened PlantRuns
  import opened Observations
  import Goals
  import opened GoalMeanings
  import opened Boards
  import opened BoardRuns

  /** Some slot of the thing, anywhere, was stocked or delivered to within the last `limit` ticks. */
  ghost predicate FreshAnywhere(v: Sight, thing: Id, limit: nat, n: nat) {
    exists slot: Slot :: slot.1 == thing && FreshWithin(v, slot, limit, n)
  }

  ghost predicate AllFresh(d: Dashboard, v: Sight, limit: nat, n: nat) {
    forall thing :: thing in d.dependsOn ==> FreshAnywhere(v, thing, limit, n)
  }

  /** The least limit within which every dependency is fresh somewhere. */
  ghost predicate Freshest(d: Dashboard, v: Sight, age: nat, n: nat) {
    AllFresh(d, v, age, n) && (age > 0 ==> !AllFresh(d, v, age - 1, n))
  }

  /** A reading is within the test of an alert. */
  predicate Alarming(test: AlertTest, v: u64) {
    match test
    case Gt(t) => v > t
    case Lt(t) => v < t
    case OutOfRange(lo, hi) => !(lo <= v <= hi)
  }

  /** What tick n of observability is shown is what has happened. */
  ghost predicate Viewed(v: Sight, view: View, n: u64) {
    && v.lay.initial.Keys == v.lay.caps.storage.Keys && Observed(v.lay, v.plant, n)
    && view == View(v.plant.stamps, v.plant.used, v.plant.inv)
  }

  /** One tag tells how recently its slot was seen. */
  lemma StampAge(v: Sight, slot: Slot, limit: nat, n: u64)
    requires v.lay.initial.Keys == v.lay.caps.storage.Keys && Observed(v.lay, v.plant, n)
    ensures FreshWithin(v, slot, limit, n) <==> slot in v.plant.stamps && Timed(v.plant.stamps[slot]) && SatSub(n, v.plant.stamps[slot].lastSet) <= limit
  {
    StampMeans(v.lay, v.plant, n, slot);
    InOrder(v.lay, v.plant, n);
    TagLatest(v.lay, v.plant.history, slot, n);
    hide SeenOn, TagOf, Observed, Budget;
  }

  lemma AgesMean(v: Sight, view: View, thing: Id, limit: u64, n: u64)
    requires Viewed(v, view, n)
    ensures Boards.SeenWithin(Ages(view.stamps, thing, n), limit) <==> FreshAnywhere(v, thing, limit, n)
  {
    hide Observed, FreshWithin;
    forall slot: Slot ensures FreshWithin(v, slot, limit, n) <==> slot in view.stamps && Timed(view.stamps[slot]) && SatSub(n, view.stamps[slot].lastSet) <= limit {
      StampAge(v, slot, limit, n);
    }
    if Boards.SeenWithin(Ages(view.stamps, thing, n), limit) {
      var a :| a in Ages(view.stamps, thing, n) && a <= limit;
      var s :| s in view.stamps && s.1 == thing && Timed(view.stamps[s]) && SatSub(n, view.stamps[s].lastSet) == a;
      assert FreshWithin(v, s, limit, n);
    }
    if FreshAnywhere(v, thing, limit, n) {
      var s: Slot :| s.1 == thing && FreshWithin(v, s, limit, n);
      assert SatSub(n, view.stamps[s].lastSet) in Ages(view.stamps, thing, n);
    }
  }

  lemma NoAges(v: Sight, view: View, thing: Id, n: u64)
    requires Viewed(v, view, n)
    ensures Ages(view.stamps, thing, n) == {} <==> !FreshAnywhere(v, thing, n, n)
  {
    AgesMean(v, view, thing, n, n);
    hide Viewed, FreshAnywhere;
    if Ages(view.stamps, thing, n) != {} {
      var a :| a in Ages(view.stamps, thing, n);
      assert a <= n;
    }
  }

  lemma AllFreshMeans(d: Dashboard, v: Sight, view: View, limit: u64, n: u64)
    requires Viewed(v, view, n)
    ensures (forall i :: 0 <= i < |d.dependsOn| ==> Boards.SeenWithin(Ages(view.stamps, d.dependsOn[i], n), limit)) <==> AllFresh(d, v, limit, n)
  {
    hide Viewed, FreshAnywhere, Ages, Boards.SeenWithin;
    forall thing ensures Boards.SeenWithin(Ages(view.stamps, thing, n), limit) <==> FreshAnywhere(v, thing, limit, n) { AgesMean(v, view, thing, limit, n); }
    assert forall i :: 0 <= i < |d.dependsOn| ==> d.dependsOn[i] in d.dependsOn;
  }

  /** A dashboard has no reading if some dependency was never seen; else its reading is the least limit within which all were. */
  lemma ReadingMeans(d: Dashboard, v: Sight, view: View, n: u64)
    requires Viewed(v, view, n)
    ensures Staleness(d, view.stamps, n).None? <==> !AllFresh(d, v, n, n)
    ensures forall age :: Staleness(d, view.stamps, n) == Some(age) ==> Freshest(d, v, age, n)
  {
    StalenessMeans(d, view.stamps, n);
    forall thing ensures Ages(view.stamps, thing, n) == {} <==> !FreshAnywhere(v, thing, n, n) { NoAges(v, view, thing, n); }
    var s := Staleness(d, view.stamps, n);
    hide Viewed, FreshAnywhere, Ages, Boards.SeenWithin, Staleness;
    if s.Some? {
      AllFreshMeans(d, v, view, s.value, n);
      if s.value > 0 { AllFreshMeans(d, v, view, s.value - 1, n); }
      hide AllFresh;
    }
    assert forall i :: 0 <= i < |d.dependsOn| ==> d.dependsOn[i] in d.dependsOn;
  }

  lemma FreshLonger(v: Sight, thing: Id, a: nat, b: nat, n: nat)
    requires a <= b && FreshAnywhere(v, thing, a, n)
    ensures FreshAnywhere(v, thing, b, n)
  {
    hide SeenOn;
    var slot: Slot :| slot.1 == thing && FreshWithin(v, slot, a, n);
    var t: nat :| SeenOn(v.lay, v.plant.history, slot, t) && t + a >= n;
    assert FreshWithin(v, slot, b, n);
  }

  lemma AllFreshLonger(d: Dashboard, v: Sight, a: nat, b: nat, n: nat)
    requires a <= b && AllFresh(d, v, a, n)
    ensures AllFresh(d, v, b, n)
  {
    hide FreshAnywhere;
    forall thing | thing in d.dependsOn ensures FreshAnywhere(v, thing, b, n) { FreshLonger(v, thing, a, b, n); }
  }

  /** Nothing is seen longer ago than the start. */
  lemma FreshSinceStart(v: Sight, thing: Id, limit: nat, n: nat)
    requires FreshAnywhere(v, thing, limit, n)
    ensures FreshAnywhere(v, thing, n, n)
  {
    hide SeenOn;
    var slot: Slot :| slot.1 == thing && FreshWithin(v, slot, limit, n);
    var t: nat :| SeenOn(v.lay, v.plant.history, slot, t) && t + limit >= n;
    assert FreshWithin(v, slot, n, n);
  }

  /**
   * A dashboard is fresh exactly if every thing it depends on was seen somewhere within its objective; it shows no
   * data exactly if one of them was never seen; and else it lags by the least limit within which all were seen.
   */
  lemma StatusMeans(d: Dashboard, v: Sight, view: View, n: u64)
    requires Viewed(v, view, n)
    ensures var s := StatusOf(d, view.stamps, n);
      && (s.Fresh? <==> AllFresh(d, v, d.slo, n))
      && (s.Missing? <==> !AllFresh(d, v, n, n))
      && (s.Lagging? ==> s.age > d.slo && Freshest(d, v, s.age, n))
  {
    ReadingMeans(d, v, view, n);
    var s := Staleness(d, view.stamps, n);
    hide Viewed, Staleness, AllFresh;
    match s {
      case None =>
        if AllFresh(d, v, d.slo, n) { AllSinceStart(d, v, d.slo, n); }
      case Some(age) =>
        if age <= d.slo { AllFreshLonger(d, v, age, d.slo, n); }
    }
  }

  lemma AllSinceStart(d: Dashboard, v: Sight, limit: nat, n: nat)
    requires AllFresh(d, v, limit, n)
    ensures AllFresh(d, v, n, n)
  {
    hide FreshAnywhere;
    forall thing | thing in d.dependsOn ensures FreshAnywhere(v, thing, n, n) { FreshSinceStart(v, thing, limit, n); }
  }

  /** What a metric reads: the share of a bucket in use, the stock of a slot, or how long ago a dashboard was fresh. */
  ghost predicate Reads(o: Observability, places: seq<Place>, m: Metric, v: Sight, n: nat, r: MetricState) {
    match m.source
    case CapacityUsed(place, bucket) =>
      r.Value? && r.value <= 100 && forall percent: nat :: percent <= r.value <==> UsedAtLeast(places, v, place, bucket, percent)
    case InventoryOf(place, thing) => r == Value(Get(v.plant.inv, (place, thing)))
    case FreshnessOf(id) =>
      forall d :: d in o.dashboards && d.id == id ==>
        if AllFresh(d, v, n, n) then r.Value? && Freshest(d, v, r.value, n) else r.Unmeasured?
  }

  lemma BoardIs(o: Observability, places: seq<Place>, d: Dashboard)
    requires BoardsOk(o, places) && d in o.dashboards
    ensures FindDashboard(o.dashboards, d.id) == Some(d)
  {
    var e := FindDashboard(o.dashboards, d.id).value;
    var i :| 0 <= i < |o.dashboards| && o.dashboards[i] == d;
    var j :| 0 <= j < |o.dashboards| && o.dashboards[j] == e;
    SortedDistinct(o.dashboards, DashboardKey, i, j);
  }

  lemma MeasureMeans(o: Observability, places: seq<Place>, m: Metric, v: Sight, view: View, n: u64)
    requires BoardsOk(o, places) && SortedBy(places, PlaceKey) && Viewed(v, view, n)
    ensures Reads(o, places, m, v, n, Measure(o, places, m, view, n))
  {
    InOrder(v.lay, v.plant, n);
    hide Observed, SortedBy, BoardsOk, UsedAtLeast, Goals.Percent, AllFresh, Freshest, Staleness, FindDashboard;
    match m.source {
      case CapacityUsed(place, bucket) =>
        forall percent: nat ensures percent <= Goals.Percent(places, view.used, place, bucket) <==> UsedAtLeast(places, v, place, bucket, percent) {
          PercentMeans(places, v, place, bucket, percent);
        }
      case InventoryOf(_, _) =>
      case FreshnessOf(id) =>
        forall d | d in o.dashboards && d.id == id
          ensures FindDashboard(o.dashboards, id) == Some(d)
          ensures Staleness(d, view.stamps, n).None? <==> !AllFresh(d, v, n, n)
          ensures forall age :: Staleness(d, view.stamps, n) == Some(age) ==> Freshest(d, v, age, n)
        {
          BoardIs(o, places, d);
          ReadingMeans(d, v, view, n);
        }
    }
  }

  // ---- Alerts over a run ----

  /** The alert sounds on tick n: its metric has a reading, and that is within its test. */
  ghost predicate AlarmOn(o: Observability, places: seq<Place>, vs: seq<View>, a: Alert, n: nat)
    requires n <= |vs| <= U64_MAX
  {
    var m := Reading(o, places, vs, a.metric, n);
    m.Value? && Alarming(a.test, m.value)
  }

  lemma SoundsMeans(o: Observability, places: seq<Place>, vs: seq<View>, a: Alert, n: nat)
    requires n <= |vs| <= U64_MAX
    ensures SoundsOn(o, places, vs, a, n) <==> AlarmOn(o, places, vs, a, n)
  {
    hide Reading;
  }

  lemma {:induction false} SinceMeans(o: Observability, places: seq<Place>, vs: seq<View>, a: Alert, n: nat)
    requires n <= |vs| <= U64_MAX && AlarmOn(o, places, vs, a, n)
    ensures var k := Since(o, places, vs, a, n);
      1 <= k <= n && (forall t :: k <= t <= n ==> AlarmOn(o, places, vs, a, t)) && !AlarmOn(o, places, vs, a, k - 1)
  {
    assert n > 0;
    SoundsMeans(o, places, vs, a, n - 1);
    hide AlarmOn, SoundsOn;
    if AlarmOn(o, places, vs, a, n - 1) { SinceMeans(o, places, vs, a, n - 1); }
  }

  /**
   * After tick n of any run an alert is firing exactly if it sounds on tick n, and then since the tick on which it
   * began to, sounding on every tick from there on and not on the one before.
   */
  lemma AlertMeans(o: Observability, places: seq<Place>, vs: seq<View>, n: nat, i: nat)
    requires BoardsOk(o, places) && n <= |vs| <= U64_MAX && i < |o.alerts|
    ensures var a := o.alerts[i]; var st := AlertOf(BoardsAt(o, places, vs, n), a.id);
      && (st.Firing? <==> AlarmOn(o, places, vs, a, n))
      && (st.Firing? ==> 1 <= st.since <= n && (forall t :: st.since <= t <= n ==> AlarmOn(o, places, vs, a, t)) && !AlarmOn(o, places, vs, a, st.since - 1))
  {
    hide *;
    AlertHistory(o, places, vs, n, i);
    AlertIs(o, places, vs, o.alerts[i], n);
    SoundsMeans(o, places, vs, o.alerts[i], n);
    if AlarmOn(o, places, vs, o.alerts[i], n) { SinceMeans(o, places, vs, o.alerts[i], n); }
  }

  lemma AlertIs(o: Observability, places: seq<Place>, vs: seq<View>, a: Alert, n: nat)
    requires n <= |vs| <= U64_MAX
    ensures AlertAt(o, places, vs, a, n) == if SoundsOn(o, places, vs, a, n) then Firing(Since(o, places, vs, a, n)) else Inactive
  {
    hide SoundsOn, Since;
  }

  // ---- What announcements say ----

  /** An alert announces its metric and the reading that set it off; a dashboard its old and new label, and how far it lags. */
  ghost predicate Tells(o: Observability, places: seq<Place>, vs: seq<View>, e: BoardEvent)
    requires |vs| <= U64_MAX
  {
    1 <= e.tick <= |vs| &&
    match e
    case BoardChanged(id, from, to, tick, age) =>
      exists d :: d in o.dashboards && d.id == id
        && from != to && Labels(StatusAt(d, vs, tick - 1), from, None, false) && Labels(StatusAt(d, vs, tick), to, age, true)
    case AlertFired(id, metric, value, tick) =>
      exists a :: a in o.alerts && a.id == id && a.metric == metric && Reading(o, places, vs, metric, tick) == Value(value) && Alarming(a.test, value)
                  && !AlarmOn(o, places, vs, a, tick - 1)
    case AlertCleared(id, metric, tick) =>
      exists a :: a in o.alerts && a.id == id && a.metric == metric && AlarmOn(o, places, vs, a, tick - 1) && !AlarmOn(o, places, vs, a, tick)
  }

  predicate Labels(s: BoardStatus, shown: string, age: Option<u64>, withAge: bool) {
    && (s.Fresh? <==> shown == "ok") && (s.Missing? <==> shown == "no_data") && (s.Lagging? <==> shown == "stale")
    && (withAge ==> age == if s.Lagging? then Some(s.age) else None)
  }

  lemma {:induction false} TrailTells(o: Observability, places: seq<Place>, vs: seq<View>, i: nat, n: nat)
    requires n <= |vs| <= U64_MAX
    ensures i < |o.alerts| ==> forall e :: e in AlertTrail(o, places, vs, o.alerts[i], n) ==> Tells(o, places, vs, e)
    ensures i < |o.dashboards| ==> forall e :: e in BoardTrail(o.dashboards[i], vs, n) ==> Tells(o, places, vs, e)
  {
    hide Reading, StatusOf;
    if n > 0 {
      TrailTells(o, places, vs, i, n - 1);
      if i < |o.alerts| {
        assert o.alerts[i] in o.alerts;
        SoundsMeans(o, places, vs, o.alerts[i], n - 1);
        SoundsMeans(o, places, vs, o.alerts[i], n);
        forall e | e in Edge(o.alerts[i], SoundsOn(o, places, vs, o.alerts[i], n - 1), Reading(o, places, vs, o.alerts[i].metric, n), n) ensures Tells(o, places, vs, e) {
          assert o.alerts[i].id == e.id;
        }
      }
      if i < |o.dashboards| {
        assert o.dashboards[i] in o.dashboards;
        forall e | e in Turn(o.dashboards[i].id, StatusAt(o.dashboards[i], vs, n - 1), StatusAt(o.dashboards[i], vs, n), n) ensures Tells(o, places, vs, e) {
          assert o.dashboards[i].id == e.id;
        }
      }
    }
  }

  /** On every run whatever is announced of a declared alert or dashboard is so. */
  lemma AnnouncementsTell(o: Observability, places: seq<Place>, vs: seq<View>, n: nat, i: nat, e: BoardEvent)
    requires BoardsOk(o, places) && n <= |vs| <= U64_MAX
    requires (i < |o.alerts| && e in LogOf(BoardsAt(o, places, vs, n).events, o.alerts[i].id, true))
          || (i < |o.dashboards| && e in LogOf(BoardsAt(o, places, vs, n).events, o.dashboards[i].id, false))
    ensures Tells(o, places, vs, e)
  {
    hide BoardsAt, AlertTrail, BoardTrail, Tells, LogOf, BoardsOk;
    if i < |o.alerts| { AlertHistory(o, places, vs, n, i); }
    if i < |o.dashboards| { BoardHistory(o, places, vs, n, i); }
    TrailTells(o, places, vs, i, n);
  }
}
