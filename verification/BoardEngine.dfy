/** Dashboards, metrics and alerts as the engine runs them, in place, against BoardTick. */
module BoardEngine {
  import opened Base
  import opened Order
  import opened Sl1Scene
  import opened Plants
  import opened Goals
  import opened Boards
  import opened Sl1State

  /** Nothing observability insists on looking up is missing. */
  ghost predicate Present(o: Observability, b: BoardState) {
    && (forall i :: 0 <= i < |o.dashboards| ==> o.dashboards[i].id in b.dashboards)
    && (forall i :: 0 <= i < |o.metrics| ==> o.metrics[i].id in b.metrics)
    && (forall i :: 0 <= i < |o.alerts| ==> o.alerts[i].id in b.alerts && o.alerts[i].metric in b.metrics)
  }

  method ComputeDashboardState(d: Dashboard, stamps: map<Slot, Freshness>, now: u64) returns (s: BoardStatus)
    ensures s == StatusOf(d, stamps, now)
  {
    var age := DashboardFreshness(d, stamps, now);
    match age {
      case None => s := Missing;
      case Some(a) => s := if a > d.slo then Lagging(a) else Fresh;
    }
  }

  method ComputeMetricState(o: Observability, places: seq<Place>, m: Metric, rt: Sl1RuntimeState, now: u64) returns (s: MetricState)
    requires BoardsOk(o, places) && m in o.metrics
    ensures s == Measure(o, places, m, rt.BoardInputs(), now)
  {
    match m.source {
      case CapacityUsed(place, bucket) =>
        var p := FindPlace(places, place).value;
        var cap := Get(p.capacity, bucket);
        s := Value(if cap == 0 then 0 else UsedPercent(Get(rt.placeCapacityUsed, (place, bucket)), cap));
      case InventoryOf(place, thing) => s := Value(Get(rt.inventories, (place, thing)));
      case FreshnessOf(id) =>
        var d := FindDashboard(o.dashboards, id).value;
        var age := DashboardFreshness(d, rt.freshness, now);
        match age {
          case None => s := Unmeasured;
          case Some(a) => s := Value(a);
        }
    }
  }

  method UpdateDashboard(d: Dashboard, rt: Sl1RuntimeState, now: u64)
    requires d.id in rt.dashboardStates
    modifies rt`dashboardStates, rt`boardEvents
    ensures rt.BoardView() == ShowBoard(old(rt.BoardView()), d.id, StatusOf(d, rt.freshness, now), now)
  {
    hide BoardStatus.Label;
    var s := ComputeDashboardState(d, rt.freshness, now);
    var was := rt.dashboardStates[d.id];
    if was.Label() != s.Label() {
      rt.boardEvents := rt.boardEvents + [BoardChanged(d.id, was.Label(), s.Label(), now, if s.Lagging? then Some(s.age) else None)];
    }
    rt.dashboardStates := rt.dashboardStates[d.id := s];
  }

  /** Fired and cleared on the edges only; a metric without data clears. */
  method UpdateAlert(a: Alert, rt: Sl1RuntimeState, now: u64)
    requires a.id in rt.alertStates && a.metric in rt.metricStates
    modifies rt`alertStates, rt`boardEvents
    ensures rt.BoardView() == JudgeAlert(a, old(rt.BoardView()), now)
  {
    hide AlertTest.Fires;
    var was, next := rt.alertStates[a.id], Inactive;
    match rt.metricStates[a.metric] {
      case Value(v) => if a.test.Fires(v) { next := if was.Firing? then was else Firing(now); }
      case Unmeasured =>
    }
    match (was, next) {
      case (Inactive, Firing(_)) =>
        rt.boardEvents := rt.boardEvents + [AlertFired(a.id, a.metric, rt.metricStates[a.metric].value, now)];
      case (Firing(_), Inactive) => rt.boardEvents := rt.boardEvents + [AlertCleared(a.id, a.metric, now)];
      case _ =>
    }
    rt.alertStates := rt.alertStates[a.id := next];
  }

  // ---- The three passes ----

  lemma ShowUnfold(o: Observability, k: nat, b: BoardState, v: View, now: u64)
    requires k <= |o.dashboards|
    ensures ShowFirst(o, 0, b, v, now) == b
    ensures k < |o.dashboards| ==>
      (ShowFirst(o, k + 1, b, v, now) == ShowBoard(ShowFirst(o, k, b, v, now), o.dashboards[k].id, StatusOf(o.dashboards[k], v.stamps, now), now))
  {
  }

  lemma MeasureUnfold(o: Observability, places: seq<Place>, k: nat, b: BoardState, v: View, now: u64)
    requires k <= |o.metrics|
    ensures MeasureFirst(o, places, 0, b, v, now) == b
    ensures k < |o.metrics| ==>
      (var before := MeasureFirst(o, places, k, b, v, now);
       MeasureFirst(o, places, k + 1, b, v, now) == before.(metrics := before.metrics[o.metrics[k].id := Measure(o, places, o.metrics[k], v, now)]))
  {
  }

  lemma AlertUnfold(o: Observability, k: nat, b: BoardState, now: u64)
    requires k <= |o.alerts|
    ensures AlertFirst(o, 0, b, now) == b
    ensures k < |o.alerts| ==> AlertFirst(o, k + 1, b, now) == JudgeAlert(o.alerts[k], AlertFirst(o, k, b, now), now)
  {
  }

  lemma PresentAt(o: Observability, b: BoardState, k: nat)
    requires Present(o, b)
    ensures k < |o.dashboards| ==> o.dashboards[k].id in b.dashboards
    ensures k < |o.alerts| ==> o.alerts[k].id in b.alerts && o.alerts[k].metric in b.metrics
    ensures k < |o.metrics| ==> o.metrics[k] in o.metrics
  {
  }

  lemma StepsKeep(o: Observability, b: BoardState, id: Id, s: BoardStatus, m: MetricState, a: Alert, now: u64)
    requires Present(o, b)
    ensures Present(o, ShowBoard(b, id, s, now)) && Present(o, b.(metrics := b.metrics[id := m])) && Present(o, JudgeAlert(a, b, now))
  {
    hide Turn, Edge, BoardStatus.Label;
  }

  method UpdateDashboards(o: Observability, rt: Sl1RuntimeState, ghost v: View, now: u64)
    requires v == rt.BoardInputs() && Present(o, rt.BoardView())
    modifies rt`dashboardStates, rt`boardEvents
    ensures rt.BoardView() == ShowFirst(o, |o.dashboards|, old(rt.BoardView()), v, now) && Present(o, rt.BoardView())
  {
    hide ShowFirst, ShowBoard, StatusOf, Present;
    ShowUnfold(o, 0, rt.BoardView(), v, now);
    for k := 0 to |o.dashboards|
      invariant rt.BoardView() == ShowFirst(o, k, old(rt.BoardView()), v, now) && Present(o, rt.BoardView())
    {
      var d := o.dashboards[k];
      PresentAt(o, rt.BoardView(), k);
      ShowUnfold(o, k, old(rt.BoardView()), v, now);
      StepsKeep(o, rt.BoardView(), d.id, StatusOf(d, rt.freshness, now), Unmeasured, Alert("", "", Gt(0)), now);
      UpdateDashboard(d, rt, now);
    }
  }

  method UpdateMetrics(o: Observability, places: seq<Place>, rt: Sl1RuntimeState, ghost v: View, now: u64)
    requires v == rt.BoardInputs() && BoardsOk(o, places) && Present(o, rt.BoardView())
    modifies rt`metricStates
    ensures rt.BoardView() == MeasureFirst(o, places, |o.metrics|, old(rt.BoardView()), v, now) && Present(o, rt.BoardView())
  {
    hide MeasureFirst, Measure, BoardsOk, Present;
    MeasureUnfold(o, places, 0, rt.BoardView(), v, now);
    for k := 0 to |o.metrics|
      invariant rt.BoardView() == MeasureFirst(o, places, k, old(rt.BoardView()), v, now) && Present(o, rt.BoardView())
    {
      PresentAt(o, rt.BoardView(), k);
      MeasureUnfold(o, places, k, old(rt.BoardView()), v, now);
      var state := ComputeMetricState(o, places, o.metrics[k], rt, now);
      StepsKeep(o, rt.BoardView(), o.metrics[k].id, Missing, state, Alert("", "", Gt(0)), now);
      rt.metricStates := rt.metricStates[o.metrics[k].id := state];
    }
  }

  method UpdateAlerts(o: Observability, rt: Sl1RuntimeState, now: u64)
    requires Present(o, rt.BoardView())
    modifies rt`alertStates, rt`boardEvents
    ensures rt.BoardView() == AlertFirst(o, |o.alerts|, old(rt.BoardView()), now) && Present(o, rt.BoardView())
  {
    hide AlertFirst, JudgeAlert, Present;
    AlertUnfold(o, 0, rt.BoardView(), now);
    for k := 0 to |o.alerts|
      invariant rt.BoardView() == AlertFirst(o, k, old(rt.BoardView()), now) && Present(o, rt.BoardView())
    {
      PresentAt(o, rt.BoardView(), k);
      AlertUnfold(o, k, old(rt.BoardView()), now);
      StepsKeep(o, rt.BoardView(), "", Missing, Unmeasured, o.alerts[k], now);
      UpdateAlert(o.alerts[k], rt, now);
    }
  }

  /** Skipped when the scene observes nothing. */
  method RunBoards(s: Scene, rt: Sl1RuntimeState, ghost v: View, now: u64)
    requires v == rt.BoardInputs() && BoardsOk(BoardsOf(s), s.places) && Present(BoardsOf(s), rt.BoardView())
    modifies rt`metricStates, rt`dashboardStates, rt`alertStates, rt`boardEvents
    ensures rt.BoardView() == BoardTick(BoardsOf(s), s.places, old(rt.BoardView()), v, now)
    ensures Present(BoardsOf(s), rt.BoardView())
  {
    hide ShowFirst, MeasureFirst, AlertFirst, BoardsOk, Present;
    var o := BoardsOf(s);
    if o.metrics == [] && o.dashboards == [] && o.alerts == [] {
      ShowUnfold(o, 0, rt.BoardView(), v, now);
      MeasureUnfold(o, s.places, 0, rt.BoardView(), v, now);
      AlertUnfold(o, 0, rt.BoardView(), now);
      return;
    }
    UpdateDashboards(o, rt, v, now);
    UpdateMetrics(o, s.places, rt, v, now);
    UpdateAlerts(o, rt, now);
  }
}
