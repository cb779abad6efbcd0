/** What pressures announce over a run: each window opens once and closes once. */
module PressureRuns {
  import opened Base
  import opened Order
  import opened Sl1Scene
  import opened Pressures

  /** The events about one pressure. */
  function LogOf(es: seq<PressureEvent>, id: Id): seq<PressureEvent> {
    if es == [] then []
    else LogOf(es[..|es| - 1], id) + if es[|es| - 1].id == id then [es[|es| - 1]] else []
  }

  lemma LogMore(es: seq<PressureEvent>, e: PressureEvent, id: Id)
    ensures LogOf(es + [e], id) == LogOf(es, id) + if e.id == id then [e] else []
  {
    assert (es + [e])[..|es|] == es;
  }

  /** The log a window has produced by the end of tick n. */
  function Opened(p: Pressure, n: nat): seq<PressureEvent> {
    if First(p) <= n && First(p) < p.EndTick() && First(p) <= U64_MAX then [PressureEvent(p.id, Activated, First(p))] else []
  }

  function Closed(p: Pressure, n: nat): seq<PressureEvent> {
    if First(p) < p.EndTick() <= n then [PressureEvent(p.id, Deactivated, p.EndTick())] else []
  }

  function Announced(p: Pressure, n: nat): seq<PressureEvent> { Opened(p, n) + Closed(p, n) }

  /** What tick n announces of p, which was or was not active before. */
  function Turns(p: Pressure, seen: bool, n: u64): seq<PressureEvent> {
    var ends := seen && n >= p.EndTick();
    Said(p.id, Deactivated, n, ends) + Said(p.id, Activated, n, InWindow(p, n) && (!seen || ends))
  }

  function Said(id: Id, kind: EventKind, n: u64, b: bool): seq<PressureEvent> {
    if b then [PressureEvent(id, kind, n)] else []
  }

  ghost predicate NoRepeats(ids: seq<Id>) {
    forall i, j :: 0 <= i < j < |ids| ==> ids[i] != ids[j]
  }

  lemma {:induction false} EndingOnce(ps: seq<Pressure>, ids: seq<Id>, now: u64)
    requires NoRepeats(ids)
    ensures NoRepeats(Ending(ps, ids, now))
  {
    if ids != [] {
      var front := ids[..|ids| - 1];
      EndingOnce(ps, front, now);
      EndingMembers(ps, front, now);
      assert ids[|ids| - 1] !in front;
      assert ids[|ids| - 1] !in Ending(ps, front, now);
    }
  }

  lemma {:induction false} DeactivationsLogged(s: PressureState, ids: seq<Id>, now: u64, id: Id)
    requires NoRepeats(ids)
    ensures var r := DeactivateAll(s, ids, now);
      LogOf(r.events, id) == LogOf(s.events, id) + if id in ids then [PressureEvent(id, Deactivated, now)] else []
  {
    if ids != [] {
      var front := ids[..|ids| - 1];
      DeactivationsLogged(s, front, now, id);
      LogMore(DeactivateAll(s, front, now).events, PressureEvent(ids[|ids| - 1], Deactivated, now), id);
      assert ids == front + [ids[|ids| - 1]];
    }
  }

  lemma {:induction false} OthersQuiet(s: PressureState, ps: seq<Pressure>, now: u64, id: Id)
    requires forall j :: 0 <= j < |ps| ==> ps[j].id != id
    ensures LogOf(ActivateAll(s, ps, now).events, id) == LogOf(s.events, id)
  {
    if ps != [] {
      var front := ps[..|ps| - 1];
      OthersQuiet(s, front, now, id);
      LogMore(ActivateAll(s, front, now).events, PressureEvent(ps[|ps| - 1].id, Activated, now), id);
    }
  }

  lemma {:induction false} ActivationsLogged(s: PressureState, ps: seq<Pressure>, now: u64, i: nat)
    requires SortedBy(ps, PressureKey) && i < |ps|
    ensures LogOf(ActivateAll(s, ps, now).events, ps[i].id)
      == LogOf(s.events, ps[i].id) + if InWindow(ps[i], now) && ps[i].id !in s.active then [PressureEvent(ps[i].id, Activated, now)] else []
  {
    var front := ps[..|ps| - 1];
    var before := ActivateAll(s, front, now);
    LogMore(before.events, PressureEvent(ps[|ps| - 1].id, Activated, now), ps[i].id);
    if i < |front| {
      ActivationsLogged(s, front, now, i);
      SortedIdsDiffer(ps, i, |front|);
    } else {
      forall j | 0 <= j < |front| ensures front[j].id != ps[i].id {
        SortedIdsDiffer(ps, j, i);
      }
      OthersQuiet(s, front, now, ps[i].id);
      ActivateElse(s, front, now, ps[i].id);
    }
  }

  lemma {:induction false} OverlaysQuiet(s: PressureState, ps: seq<Pressure>)
    ensures OverlayAll(s, ps).events == s.events
  {
    if ps != [] { OverlaysQuiet(s, ps[..|ps| - 1]); }
  }

  lemma {:induction false} PumpsQuiet(s: PressureState, ps: seq<Pressure>)
    ensures PumpAll(s, ps).0.events == s.events
  {
    if ps != [] { PumpsQuiet(s, ps[..|ps| - 1]); }
  }

  lemma TickParts(ps: seq<Pressure>, s: PressureState, n: u64, i: nat)
    requires SortedBy(ps, PressureKey) && i < |ps|
    ensures var p := ps[i]; var ends := p.id in s.active && n >= p.EndTick();
      LogOf(PressureTick(ps, s, n).0.events, p.id)
        == LogOf(s.events, p.id) + Said(p.id, Deactivated, n, ends) + Said(p.id, Activated, n, InWindow(p, n) && (p.id !in s.active || ends))
  {
    var ids := Ending(ps, Listing(s.active.Keys, Self), n);
    var s1 := DeactivateAll(s, ids, n);
    var s2 := ActivateAll(s1, ps, n);
    ListingSorted(s.active.Keys, Self);
    EndingMembers(ps, Listing(s.active.Keys, Self), n);
    ListingOnce(s.active.Keys);
    EndingOnce(ps, Listing(s.active.Keys, Self), n);
    FoundUnique(ps, ps[i]);
    DeactivationsLogged(s, ids, n, ps[i].id);
    DeactivateEffect(s, ids, n);
    ActivationsLogged(s1, ps, n, i);
    OverlaysQuiet(s2, ps);
    PumpsQuiet(OverlayAll(s2, ps), ps);
  }

  /** What one tick adds to the log of the pressure at position i. */
  lemma TickLogged(ps: seq<Pressure>, s: PressureState, n: u64, i: nat)
    requires SortedBy(ps, PressureKey) && i < |ps|
    ensures LogOf(PressureTick(ps, s, n).0.events, ps[i].id) == LogOf(s.events, ps[i].id) + Turns(ps[i], ps[i].id in s.active, n)
  {
    TickParts(ps, s, n, i);
    hide LogOf, PressureTick, Said, InWindow, SortedBy;
  }

  lemma ListingOnce(ids: set<Id>)
    ensures NoRepeats(Listing(ids, Self))
  {
    var l := Listing(ids, Self);
    ListingSorted(ids, Self);
    forall i, j | 0 <= i < j < |l| ensures l[i] != l[j] {
      if l[i] == l[j] { SortedDistinct(l, Self, i, j); }
    }
  }

  lemma SeenBefore(ps: seq<Pressure>, n: nat, i: nat)
    requires PressuresOk(ps) && 0 < n <= U64_MAX && i < |ps|
    ensures ps[i].id in PressureAt(ps, n - 1).active <==> First(ps[i]) <= n - 1 < ps[i].EndTick()
  {
    if n > 1 {
      PressureClosedForm(ps, n - 1);
      hide PressureAt, PressuresOk, CarryExactly, OverlaysExactly;
      assert ps[i] in ps;
    } else {
      assert PressureAt(ps, 0) == Calm;
    }
  }

  lemma WindowStep(p: Pressure, n: u64, seen: bool)
    requires PressureOk(p) && n > 0 && (seen <==> First(p) <= n - 1 < p.EndTick())
    ensures Announced(p, n) == Announced(p, n - 1) + Turns(p, seen, n)
  {
    assert p.EndTick() == p.atTick + p.duration;
  }

  lemma RunUnfold(ps: seq<Pressure>, n: nat, i: nat)
    requires PressuresOk(ps) && n <= U64_MAX && i < |ps|
    ensures PressureOk(ps[i]) && SortedBy(ps, PressureKey)
    ensures n == 0 ==> LogOf(PressureAt(ps, n).events, ps[i].id) == [] == Announced(ps[i], n)
    ensures n > 0 ==> PressureAt(ps, n) == PressureTick(ps, PressureAt(ps, n - 1), n).0
  {
    hide PressureTick;
  }

  /**
   * On every run a pressure is announced active once, on the first tick that sees its window, and over once, on
   * its end tick; a window that no tick sees is never announced.
   */
  lemma {:induction false} WindowsAnnounced(ps: seq<Pressure>, n: nat, i: nat)
    requires PressuresOk(ps) && n <= U64_MAX && i < |ps|
    ensures LogOf(PressureAt(ps, n).events, ps[i].id) == Announced(ps[i], n)
  {
    hide *;
    RunUnfold(ps, n, i);
    if n > 0 {
      WindowsAnnounced(ps, n - 1, i);
      SeenBefore(ps, n, i);
      TickLogged(ps, PressureAt(ps, n - 1), n, i);
      WindowStep(ps[i], n, ps[i].id in PressureAt(ps, n - 1).active);
    }
  }
}
