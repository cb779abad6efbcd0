/** Over any run, what is shown is what the last tick measured, and the announcements replay to it. */
module BoardRuns {
  import opened Base
  import opened Order
  import opened Sl1Scene
  import opened Plants
  import opened Goals
  import opened Boards

  ghost function BoardsAt(o: Observability, places: seq<Place>, vs: seq<View>, n: nat): BoardState
    requires n <= |vs| <= U64_MAX
  {
    if n == 0 then FreshBoards(o) else BoardTick(o, places, BoardsAt(o, places, vs, n - 1), vs[n - 1], n)
  }

  // ---- The histories, without any stored state ----

  ghost function StatusAt(d: Dashboard, vs: seq<View>, n: nat): BoardStatus
    requires n <= |vs| <= U64_MAX
  {
    if n == 0 then Missing else StatusOf(d, vs[n - 1].stamps, n)
  }

  ghost function Reading(o: Observability, places: seq<Place>, vs: seq<View>, id: Id, n: nat): MetricState
    requires n <= |vs| <= U64_MAX
  {
    var m := FindMetric(o.metrics, id);
    if n == 0 || m.None? then Unmeasured else Measure(o, places, m.value, vs[n - 1], n)
  }

  ghost predicate SoundsOn(o: Observability, places: seq<Place>, vs: seq<View>, a: Alert, n: nat)
    requires n <= |vs| <= U64_MAX
  {
    Sounds(a, Reading(o, places, vs, a.metric, n))
  }

  /** The first tick of the unbroken spell of sounding that holds n. */
  ghost function Since(o: Observability, places: seq<Place>, vs: seq<View>, a: Alert, n: nat): u64
    requires n <= |vs| <= U64_MAX
  {
    if n > 0 && SoundsOn(o, places, vs, a, n - 1) then Since(o, places, vs, a, n - 1) else n
  }

  ghost function AlertAt(o: Observability, places: seq<Place>, vs: seq<View>, a: Alert, n: nat): AlertState
    requires n <= |vs| <= U64_MAX
  {
    if SoundsOn(o, places, vs, a, n) then Firing(Since(o, places, vs, a, n)) else Inactive
  }

  ghost function BoardTrail(d: Dashboard, vs: seq<View>, n: nat): seq<BoardEvent>
    requires n <= |vs| <= U64_MAX
  {
    if n == 0 then [] else BoardTrail(d, vs, n - 1) + Turn(d.id, StatusAt(d, vs, n - 1), StatusAt(d, vs, n), n)
  }

  ghost function AlertTrail(o: Observability, places: seq<Place>, vs: seq<View>, a: Alert, n: nat): seq<BoardEvent>
    requires n <= |vs| <= U64_MAX
  {
    if n == 0 then []
    else AlertTrail(o, places, vs, a, n - 1) + Edge(a, SoundsOn(o, places, vs, a, n - 1), Reading(o, places, vs, a.metric, n), n)
  }

  // ---- The log of one subject ----

  predicate About(e: BoardEvent, id: Id, alert: bool) {
    e.id == id && (alert <==> !e.BoardChanged?)
  }

  function LogOf(es: seq<BoardEvent>, id: Id, alert: bool): seq<BoardEvent> {
    if es == [] then []
    else LogOf(es[..|es| - 1], id, alert) + if About(es[|es| - 1], id, alert) then [es[|es| - 1]] else []
  }

  lemma LogMore(es: seq<BoardEvent>, more: seq<BoardEvent>, id: Id, alert: bool)
    requires |more| <= 1
    ensures LogOf(es + more, id, alert) == LogOf(es, id, alert) + if more != [] && About(more[0], id, alert) then more else []
  {
    if more == [] {
      assert es + more == es;
    } else {
      assert (es + more)[..|es|] == es;
    }
  }

  // ---- One tick, subject by subject ----

  lemma ShowOne(b: BoardState, d: Id, s: BoardStatus, now: u64, id: Id)
    ensures var r := ShowBoard(b, d, s, now);
      && r.metrics == b.metrics && r.alerts == b.alerts
      && LogOf(r.events, id, true) == LogOf(b.events, id, true)
      && BoardOf(r, id) == (if d == id then s else BoardOf(b, id))
      && LogOf(r.events, id, false) == LogOf(b.events, id, false) + (if d == id then Turn(id, BoardOf(b, id), s, now) else [])
  {
    hide LogOf, BoardStatus.Label;
    var t := Turn(d, BoardOf(b, d), s, now);
    LogMore(b.events, t, id, true);
    LogMore(b.events, t, id, false);
  }

  lemma ShowUnfold(o: Observability, k: nat, b: BoardState, v: View, now: u64)
    requires k <= |o.dashboards|
    ensures ShowFirst(o, k, b, v, now) ==
      if k == 0 then b
      else ShowBoard(ShowFirst(o, k - 1, b, v, now), o.dashboards[k - 1].id, StatusOf(o.dashboards[k - 1], v.stamps, now), now)
  {
  }

  lemma {:induction false} ShowFrame(o: Observability, k: nat, b: BoardState, v: View, now: u64, id: Id)
    requires k <= |o.dashboards|
    ensures var r := ShowFirst(o, k, b, v, now);
      r.metrics == b.metrics && r.alerts == b.alerts && LogOf(r.events, id, true) == LogOf(b.events, id, true)
  {
    hide *;
    ShowUnfold(o, k, b, v, now);
    if k > 0 {
      ShowFrame(o, k - 1, b, v, now, id);
      ShowOne(ShowFirst(o, k - 1, b, v, now), o.dashboards[k - 1].id, StatusOf(o.dashboards[k - 1], v.stamps, now), now, id);
    }
  }

  lemma {:induction false} ShowAt(o: Observability, k: nat, i: nat, b: BoardState, v: View, now: u64)
    requires SortedBy(o.dashboards, DashboardKey) && k <= |o.dashboards| && i < |o.dashboards|
    ensures var r := ShowFirst(o, k, b, v, now); var d := o.dashboards[i]; var s := StatusOf(d, v.stamps, now);
      && BoardOf(r, d.id) == (if i < k then s else BoardOf(b, d.id))
      && LogOf(r.events, d.id, false) == LogOf(b.events, d.id, false) + (if i < k then Turn(d.id, BoardOf(b, d.id), s, now) else [])
  {
    hide *;
    ShowUnfold(o, k, b, v, now);
    if k > 0 {
      ShowAt(o, k - 1, i, b, v, now);
      BoardIdsDiffer(o, i, k - 1);
      ShowOne(ShowFirst(o, k - 1, b, v, now), o.dashboards[k - 1].id, StatusOf(o.dashboards[k - 1], v.stamps, now), now, o.dashboards[i].id);
    }
  }

  lemma BoardIdsDiffer(o: Observability, i: nat, j: nat)
    requires SortedBy(o.dashboards, DashboardKey) && i < |o.dashboards| && j < |o.dashboards|
    ensures o.dashboards[i].id == o.dashboards[j].id <==> i == j
  {
    if o.dashboards[i].id == o.dashboards[j].id { SortedDistinct(o.dashboards, DashboardKey, i, j); }
  }

  lemma {:induction false} MeasureFrame(o: Observability, places: seq<Place>, k: nat, b: BoardState, v: View, now: u64)
    requires k <= |o.metrics|
    ensures var r := MeasureFirst(o, places, k, b, v, now);
      r.dashboards == b.dashboards && r.alerts == b.alerts && r.events == b.events
  {
    if k > 0 { MeasureFrame(o, places, k - 1, b, v, now); }
  }

  lemma {:induction false} MeasureAt(o: Observability, places: seq<Place>, k: nat, i: nat, b: BoardState, v: View, now: u64)
    requires SortedBy(o.metrics, MetricKey) && i < k <= |o.metrics|
    ensures MetricOf(MeasureFirst(o, places, k, b, v, now), o.metrics[i].id) == Measure(o, places, o.metrics[i], v, now)
  {
    hide Measure;
    if i < k - 1 {
      MeasureAt(o, places, k - 1, i, b, v, now);
      if o.metrics[i].id == o.metrics[k - 1].id { SortedDistinct(o.metrics, MetricKey, i, k - 1); }
    }
  }

  lemma JudgeOne(a: Alert, b: BoardState, now: u64, id: Id)
    ensures var r := JudgeAlert(a, b, now); var was, m := AlertOf(b, id), MetricOf(b, a.metric);
      && r.metrics == b.metrics && r.dashboards == b.dashboards
      && LogOf(r.events, id, false) == LogOf(b.events, id, false)
      && AlertOf(r, id) == (if a.id == id then NextAlert(a, was, m, now) else was)
      && LogOf(r.events, id, true) == LogOf(b.events, id, true) + (if a.id == id then Edge(a, was.Firing?, m, now) else [])
  {
    hide LogOf, AlertTest.Fires;
    var e := Edge(a, AlertOf(b, a.id).Firing?, MetricOf(b, a.metric), now);
    LogMore(b.events, e, id, true);
    LogMore(b.events, e, id, false);
  }

  lemma AlertUnfold(o: Observability, k: nat, b: BoardState, now: u64)
    requires k <= |o.alerts|
    ensures AlertFirst(o, k, b, now) == if k == 0 then b else JudgeAlert(o.alerts[k - 1], AlertFirst(o, k - 1, b, now), now)
  {
  }

  lemma {:induction false} AlertFrame(o: Observability, k: nat, b: BoardState, now: u64, id: Id)
    requires k <= |o.alerts|
    ensures var r := AlertFirst(o, k, b, now);
      r.metrics == b.metrics && r.dashboards == b.dashboards && LogOf(r.events, id, false) == LogOf(b.events, id, false)
  {
    hide *;
    AlertUnfold(o, k, b, now);
    if k > 0 {
      AlertFrame(o, k - 1, b, now, id);
      JudgeOne(o.alerts[k - 1], AlertFirst(o, k - 1, b, now), now, id);
    }
  }

  lemma AlertIdsDiffer(o: Observability, i: nat, j: nat)
    requires SortedBy(o.alerts, AlertKey) && i < |o.alerts| && j < |o.alerts|
    ensures o.alerts[i].id == o.alerts[j].id <==> i == j
  {
    if o.alerts[i].id == o.alerts[j].id { SortedDistinct(o.alerts, AlertKey, i, j); }
  }

  lemma SameMetric(b: BoardState, c: BoardState, id: Id)
    requires b.metrics == c.metrics
    ensures MetricOf(b, id) == MetricOf(c, id)
  {
  }

  lemma {:induction false} AlertsAt(o: Observability, k: nat, i: nat, b: BoardState, now: u64)
    requires SortedBy(o.alerts, AlertKey) && k <= |o.alerts| && i < |o.alerts|
    ensures var r := AlertFirst(o, k, b, now); var a := o.alerts[i]; var was, m := AlertOf(b, a.id), MetricOf(b, a.metric);
      && r.metrics == b.metrics
      && AlertOf(r, a.id) == (if i < k then NextAlert(a, was, m, now) else was)
      && LogOf(r.events, a.id, true) == LogOf(b.events, a.id, true) + (if i < k then Edge(a, was.Firing?, m, now) else [])
  {
    hide *;
    AlertUnfold(o, k, b, now);
    if k > 0 {
      AlertsAt(o, k - 1, i, b, now);
      AlertIdsDiffer(o, i, k - 1);
      JudgeOne(o.alerts[k - 1], AlertFirst(o, k - 1, b, now), now, o.alerts[i].id);
      SameMetric(b, AlertFirst(o, k - 1, b, now), o.alerts[i].metric);
    }
  }

  lemma MetricAt(o: Observability, places: seq<Place>, b: BoardState, v: View, now: u64, id: Id)
    requires SortedBy(o.metrics, MetricKey) && FindMetric(o.metrics, id).Some?
    ensures MetricOf(MeasureFirst(o, places, |o.metrics|, b, v, now), id) == Measure(o, places, FindMetric(o.metrics, id).value, v, now)
  {
    var m := FindMetric(o.metrics, id).value;
    var i :| 0 <= i < |o.metrics| && o.metrics[i] == m;
    MeasureAt(o, places, |o.metrics|, i, b, v, now);
  }

  lemma BoardTickOf(o: Observability, places: seq<Place>, b: BoardState, v: View, now: u64, i: nat)
    requires BoardsOk(o, places) && i < |o.dashboards|
    ensures var r := BoardTick(o, places, b, v, now); var d := o.dashboards[i]; var s := StatusOf(d, v.stamps, now);
      && BoardOf(r, d.id) == s
      && LogOf(r.events, d.id, false) == LogOf(b.events, d.id, false) + Turn(d.id, BoardOf(b, d.id), s, now)
  {
    hide StatusOf, LogOf, Turn, ShowFirst, MeasureFirst, AlertFirst, Measure, FindMetric, FindDashboard, FindPlace;
    var b1 := ShowFirst(o, |o.dashboards|, b, v, now);
    var b2 := MeasureFirst(o, places, |o.metrics|, b1, v, now);
    ShowAt(o, |o.dashboards|, i, b, v, now);
    MeasureFrame(o, places, |o.metrics|, b1, v, now);
    AlertFrame(o, |o.alerts|, b2, now, o.dashboards[i].id);
  }

  lemma MetricTickOf(o: Observability, places: seq<Place>, b: BoardState, v: View, now: u64, id: Id)
    requires BoardsOk(o, places) && FindMetric(o.metrics, id).Some?
    ensures MetricOf(BoardTick(o, places, b, v, now), id) == Measure(o, places, FindMetric(o.metrics, id).value, v, now)
  {
    hide LogOf, ShowFirst, MeasureFirst, AlertFirst, Measure, FindMetric, FindDashboard, FindPlace;
    var b1 := ShowFirst(o, |o.dashboards|, b, v, now);
    var b2 := MeasureFirst(o, places, |o.metrics|, b1, v, now);
    MetricAt(o, places, b1, v, now, id);
    AlertFrame(o, |o.alerts|, b2, now, id);
  }

  lemma AlertTickOf(o: Observability, places: seq<Place>, b: BoardState, v: View, now: u64, i: nat)
    requires BoardsOk(o, places) && i < |o.alerts|
    ensures FindMetric(o.metrics, o.alerts[i].metric).Some?
    ensures var r := BoardTick(o, places, b, v, now); var a := o.alerts[i];
      var m := Measure(o, places, FindMetric(o.metrics, a.metric).value, v, now);
      && AlertOf(r, a.id) == NextAlert(a, AlertOf(b, a.id), m, now)
      && LogOf(r.events, a.id, true) == LogOf(b.events, a.id, true) + Edge(a, AlertOf(b, a.id).Firing?, m, now)
  {
    hide LogOf, Edge, NextAlert, ShowFirst, MeasureFirst, AlertFirst, Measure, FindMetric, FindDashboard, FindPlace;
    var b1 := ShowFirst(o, |o.dashboards|, b, v, now);
    var b2 := MeasureFirst(o, places, |o.metrics|, b1, v, now);
    var a := o.alerts[i];
    assert a in o.alerts;
    ShowFrame(o, |o.dashboards|, b, v, now, a.id);
    MeasureFrame(o, places, |o.metrics|, b1, v, now);
    MetricAt(o, places, b1, v, now, a.metric);
    AlertsAt(o, |o.alerts|, i, b2, now);
  }

  // ---- Whole runs ----

  /** After tick n a dashboard shows its staleness on tick n, and has been announced at every change of label. */
  lemma {:induction false} BoardHistory(o: Observability, places: seq<Place>, vs: seq<View>, n: nat, i: nat)
    requires BoardsOk(o, places) && n <= |vs| <= U64_MAX && i < |o.dashboards|
    ensures BoardOf(BoardsAt(o, places, vs, n), o.dashboards[i].id) == StatusAt(o.dashboards[i], vs, n)
    ensures LogOf(BoardsAt(o, places, vs, n).events, o.dashboards[i].id, false) == BoardTrail(o.dashboards[i], vs, n)
  {
    hide BoardTick, StatusOf, Turn, BoardsOk;
    if n > 0 {
      BoardHistory(o, places, vs, n - 1, i);
      BoardTickOf(o, places, BoardsAt(o, places, vs, n - 1), vs[n - 1], n, i);
    }
  }

  /** A metric holds what its source read on the last tick. */
  lemma MetricHistory(o: Observability, places: seq<Place>, vs: seq<View>, n: nat, id: Id)
    requires BoardsOk(o, places) && 0 < n <= |vs| <= U64_MAX && FindMetric(o.metrics, id).Some?
    ensures MetricOf(BoardsAt(o, places, vs, n), id) == Reading(o, places, vs, id, n)
  {
    hide BoardTick, Measure, BoardsOk, FindMetric;
    MetricTickOf(o, places, BoardsAt(o, places, vs, n - 1), vs[n - 1], n, id);
  }

  /**
   * After tick n an alert is firing exactly when its test holds of the reading on tick n, and then since the
   * start of the current spell; it has been announced exactly at the edges of the spells.
   */
  lemma {:induction false} AlertHistory(o: Observability, places: seq<Place>, vs: seq<View>, n: nat, i: nat)
    requires BoardsOk(o, places) && n <= |vs| <= U64_MAX && i < |o.alerts|
    ensures AlertOf(BoardsAt(o, places, vs, n), o.alerts[i].id) == AlertAt(o, places, vs, o.alerts[i], n)
    ensures LogOf(BoardsAt(o, places, vs, n).events, o.alerts[i].id, true) == AlertTrail(o, places, vs, o.alerts[i], n)
  {
    hide BoardTick, Measure, Edge, BoardsOk, FindMetric;
    if n > 0 {
      AlertHistory(o, places, vs, n - 1, i);
      AlertTickOf(o, places, BoardsAt(o, places, vs, n - 1), vs[n - 1], n, i);
    }
  }

  /** Firings and clearings taken alternately, starting inactive; none if they do not alternate. */
  function ReplayAlert(es: seq<BoardEvent>): Option<AlertState> {
    if es == [] then Some(Inactive)
    else
      var before, e := ReplayAlert(es[..|es| - 1]), es[|es| - 1];
      if e.AlertFired? && before == Some(Inactive) then Some(Firing(e.tick))
      else if e.AlertCleared? && before.Some? && before.value.Firing? then Some(Inactive)
      else None
  }

  /** Changes taken in turn from "no_data", each from the label the last one left, to another one. */
  function ReplayBoard(es: seq<BoardEvent>): Option<string> {
    if es == [] then Some("no_data")
    else
      var before, e := ReplayBoard(es[..|es| - 1]), es[|es| - 1];
      if e.BoardChanged? && before == Some(e.from) && e.to != e.from then Some(e.to) else None
  }

  lemma {:induction false} AlertTrailReplays(o: Observability, places: seq<Place>, vs: seq<View>, a: Alert, n: nat)
    requires n <= |vs| <= U64_MAX
    ensures ReplayAlert(AlertTrail(o, places, vs, a, n)) == Some(AlertAt(o, places, vs, a, n))
  {
    hide Measure, FindMetric;
    if n > 0 {
      AlertTrailReplays(o, places, vs, a, n - 1);
      var before := AlertTrail(o, places, vs, a, n - 1);
      var e := Edge(a, SoundsOn(o, places, vs, a, n - 1), Reading(o, places, vs, a.metric, n), n);
      if e == [] {
        assert before + e == before;
      } else {
        assert (before + e)[..|before|] == before;
      }
    }
  }

  lemma {:induction false} BoardTrailReplays(d: Dashboard, vs: seq<View>, n: nat)
    requires n <= |vs| <= U64_MAX
    ensures ReplayBoard(BoardTrail(d, vs, n)) == Some(StatusAt(d, vs, n).Label())
  {
    hide StatusOf;
    if n > 0 {
      BoardTrailReplays(d, vs, n - 1);
      var before := BoardTrail(d, vs, n - 1);
      var e := Turn(d.id, StatusAt(d, vs, n - 1), StatusAt(d, vs, n), n);
      if e == [] {
        assert before + e == before;
      } else {
        assert (before + e)[..|before|] == before;
      }
    }
  }

  /** On every run the log of each subject replays, edge by edge, to the state stored for it. */
  lemma EventsReplayToState(o: Observability, places: seq<Place>, vs: seq<View>, n: nat)
    requires BoardsOk(o, places) && n <= |vs| <= U64_MAX
    ensures var b := BoardsAt(o, places, vs, n);
      && (forall i :: 0 <= i < |o.alerts| ==> ReplayAlert(LogOf(b.events, o.alerts[i].id, true)) == Some(AlertOf(b, o.alerts[i].id)))
      && (forall i :: 0 <= i < |o.dashboards| ==> ReplayBoard(LogOf(b.events, o.dashboards[i].id, false)) == Some(BoardOf(b, o.dashboards[i].id).Label()))
  {
    hide *;
    var b := BoardsAt(o, places, vs, n);
    forall i | 0 <= i < |o.alerts| ensures ReplayAlert(LogOf(b.events, o.alerts[i].id, true)) == Some(AlertOf(b, o.alerts[i].id)) {
      AlertHistory(o, places, vs, n, i);
      AlertTrailReplays(o, places, vs, o.alerts[i], n);
    }
    forall i | 0 <= i < |o.dashboards|
      ensures ReplayBoard(LogOf(b.events, o.dashboards[i].id, false)) == Some(BoardOf(b, o.dashboards[i].id).Label())
    {
      BoardHistory(o, places, vs, n, i);
      BoardTrailReplays(o.dashboards[i], vs, n);
    }
  }
}
