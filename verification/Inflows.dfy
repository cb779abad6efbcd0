/** What pressure pours into a slot on a tick of a scene, told by windows, rates and the room there is. */
module Inflows {
  import opened Base
  import opened Order
  import opened Sl1Scene
  import opened Pressures
  import opened Plants
  import opened PlantRuns
  import opened Ledger
  import opened Reservations
  import Agents
  import opened Sl1State
  import opened TickEngine
  import opened Sl1Runs
  import opened SceneTheorems

  /** Units asked for in one slot. */
  function Asked(rs: seq<Request>, s: Slot): nat {
    if rs == [] then 0 else Asked(rs[..|rs| - 1], s) + if rs[|rs| - 1].slot == s then rs[|rs| - 1].whole else 0
  }

  /** A slot takes what it is asked to, up to its capacity; one that is over it already takes nothing. */
  function Filled(stock: nat, cap: nat, asked: nat): nat { Max(stock, Min(cap, stock + asked)) }

  lemma {:induction false} InjectionFills(inv: map<Slot, u64>, caps: map<Slot, u64>, rs: seq<Request>, s: Slot)
    ensures Get(InjectAll(inv, caps, rs), s) == Filled(Get(inv, s), Get(caps, s), Asked(rs, s))
  {
    if rs != [] { InjectionFills(inv, caps, rs[..|rs| - 1], s); }
  }

  /**
   * What a source asks of a slot on tick n: over the ticks of its window so far its milli-units add up to so many
   * whole units, less those it asked for before.
   */
  function Pours(p: Pressure, n: nat, s: Slot): nat {
    if p.params.SourceMultiplier? && (p.target, p.params.thing) == s && 1 <= n && p.atTick <= n < p.atTick + p.duration
    then ((n - Max(1, p.atTick) + 1) * p.params.milli) / 1000 - ((n - Max(1, p.atTick)) * p.params.milli) / 1000
    else 0
  }

  function Poured(ps: seq<Pressure>, n: nat, s: Slot): nat {
    if ps == [] then 0 else Poured(ps[..|ps| - 1], n, s) + Pours(ps[|ps| - 1], n, s)
  }

  lemma AskedMore(rs: seq<Request>, r: Request, s: Slot)
    ensures Asked(rs + [r], s) == Asked(rs, s) + if r.slot == s then r.whole else 0
  {
    assert (rs + [r])[..|rs|] == rs;
  }

  lemma PoursIs(p: Pressure, n: u64, s: Slot)
    requires PressureOk(p) && n > 0 && p.params.SourceMultiplier? && InWindow(p, n)
    ensures Whole(p, n) <= U64_MAX && Pours(p, n, s) == if (p.target, p.params.thing) == s then Whole(p, n) else 0
  {
    var k, m := n - First(p), p.params.milli;
    assert (k + 1) * m == k * m + m;
    Spill(k * m, m);
    assert Whole(p, n) <= m;
  }

  function OneWanted(p: Pressure, n: u64): seq<Request> {
    if InWindow(p, n) && n > 0 && p.params.SourceMultiplier? && 0 < Whole(p, n) <= U64_MAX then [Request((p.target, p.params.thing), Whole(p, n))] else []
  }

  lemma WantedLast(front: seq<Pressure>, p: Pressure, n: u64)
    ensures Wanted(front + [p], n) == Wanted(front, n) + OneWanted(p, n)
  {
    assert (front + [p])[..|front|] == front;
    hide Whole, InWindow;
  }

  lemma OnePours(p: Pressure, n: u64, s: Slot)
    requires n > 0 && PressureOk(p)
    ensures OneWanted(p, n) == [] ==> Pours(p, n, s) == 0
    ensures OneWanted(p, n) != [] ==> |OneWanted(p, n)| == 1 && Pours(p, n, s) == if OneWanted(p, n)[0].slot == s then OneWanted(p, n)[0].whole else 0
  {
    if p.params.SourceMultiplier? && InWindow(p, n) {
      PoursIs(p, n, s);
      hide Pours, Whole, InWindow;
    }
  }

  lemma WantedOne(front: seq<Pressure>, p: Pressure, n: u64, s: Slot)
    requires n > 0 && PressureOk(p)
    ensures Asked(Wanted(front + [p], n), s) == Asked(Wanted(front, n), s) + Pours(p, n, s)
  {
    hide *;
    WantedLast(front, p, n);
    OnePours(p, n, s);
    if OneWanted(p, n) == [] {
      assert Wanted(front, n) + [] == Wanted(front, n);
    } else {
      AskedMore(Wanted(front, n), OneWanted(p, n)[0], s);
      assert OneWanted(p, n) == [OneWanted(p, n)[0]];
    }
  }

  lemma {:induction false} WantedPours(ps: seq<Pressure>, n: u64, s: Slot)
    requires n > 0 && forall i :: 0 <= i < |ps| ==> PressureOk(ps[i])
    ensures Asked(Wanted(ps, n), s) == Poured(ps, n, s)
  {
    hide Pours, Wanted, PressureOk, Asked;
    if ps == [] {
      NothingWanted(n, s);
    } else {
      var front, p := ps[..|ps| - 1], ps[|ps| - 1];
      WantedPours(front, n, s);
      WantedOne(front, p, n, s);
      assert front + [p] == ps;
    }
  }

  lemma NothingWanted(n: u64, s: Slot)
    ensures Asked(Wanted([], n), s) == 0
  {
  }

  lemma WeatherAsks(s: Scene, n: nat, slot: Slot)
    requires PressuresOk(s.pressure) && 0 < n <= U64_MAX
    ensures Asked(WeatherAt(s, n).requests, slot) == Poured(s.pressure, n, slot)
  {
    PressureClosedForm(s.pressure, n);
    hide PressureTick, PressureAt, Wanted, ActiveExactly, CarryExactly, OverlaysExactly;
    WantedPours(s.pressure, n, slot);
  }

  /** Units delivered to, or taken from, a slot on tick n. */
  function Delivered(lay: Layout, h: seq<Logged>, s: Slot): nat { Total(lay.ts, h, Outputs, s) }
  function Taken(lay: Layout, h: seq<Logged>, s: Slot): nat { Total(lay.ts, h, Inputs, s) }

  ghost predicate Land(rs: seq<Request>, inv: map<Slot, u64>) { forall i :: 0 <= i < |rs| ==> rs[i].slot in inv }

  lemma ArrivedFills(lay: Layout, ws: seq<Weather>, n: nat, s: Slot)
    requires 0 < n <= |ws| <= U64_MAX && Land(ws[n - 1].requests, PlantAt(lay, ws, n - 1).inv)
    ensures var before := Get(PlantAt(lay, ws, n - 1).inv, s);
      before + Arrived(lay, ws, n, s) - Arrived(lay, ws, n - 1, s) == Filled(before, Get(lay.caps.storage, s), Asked(ws[n - 1].requests, s))
  {
    InjectionExact(PlantAt(lay, ws, n - 1).inv, lay.caps.storage, ws[n - 1].requests, s);
    InjectionFills(PlantAt(lay, ws, n - 1).inv, lay.caps.storage, ws[n - 1].requests, s);
    hide InjectAll, InjectedTo, PlantAt, Asked, Filled;
  }

  lemma RequestsLand(lay: Layout, sources: set<Slot>, ws: seq<Weather>, n: nat)
    requires LayoutOk(lay, sources) && WeathersOk(ws, sources) && 0 < n <= |ws|
    ensures |ws| <= U64_MAX && Land(ws[n - 1].requests, PlantAt(lay, ws, n - 1).inv)
  {
    hide *;
    WeathersBounded(ws, sources);
    PlantInvariant(lay, sources, ws, n - 1);
    AllLand(lay, sources, ArrivedBy(lay, ws, n - 1), PlantAt(lay, ws, n - 1), n - 1, ws, n - 1);
  }

  lemma WeathersBounded(ws: seq<Weather>, sources: set<Slot>)
    requires WeathersOk(ws, sources)
    ensures |ws| <= U64_MAX
  {
    hide WeatherOk;
  }

  lemma AllLand(lay: Layout, sources: set<Slot>, arrived: Slot -> nat, p: Plant, now: u64, ws: seq<Weather>, i: nat)
    requires LayoutOk(lay, sources) && PlantOk(lay, sources, arrived, p, now) && WeathersOk(ws, sources) && i < |ws|
    ensures Land(ws[i].requests, p.inv)
  {
    hide StockExact, TagsExact, ReservedExactly, WithinLimits, TransformsOk, CapsFit;
    assert WeatherOk(ws[i], sources);
    assert sources <= p.inv.Keys;
  }

  /**
   * On tick n a slot first takes what the sources whose windows hold n pour into it, as far as there is room; the
   * transforms then take what starts on n consume and add what is delivered on n.
   */
  lemma SceneStock(s: Scene, ask: Agents.Backend, n: nat, slot: Slot)
    requires SceneOk(s) && LayoutOk(LayoutOf(s), SourceSlots(s.pressure)) && 0 < n <= U64_MAX
    ensures var lay, before, after := LayoutOf(s), WorldAt(s, ask, n - 1).plant, WorldAt(s, ask, n).plant;
      Get(after.inv, slot) + Taken(lay, after.history, slot) - Taken(lay, before.history, slot)
        == Filled(Get(before.inv, slot), Get(lay.caps.storage, slot), Poured(s.pressure, n, slot))
           + Delivered(lay, after.history, slot) - Delivered(lay, before.history, slot)
  {
    hide *;
    var lay, sources, ws := LayoutOf(s), SourceSlots(s.pressure), Weathers(s, n);
    SceneParts(s);
    WeathersFit(s, n);
    PlantsRun(s, ask, n - 1, n);
    PlantsRun(s, ask, n, n);
    LedgerBalances(lay, sources, ws, n - 1, slot);
    LedgerBalances(lay, sources, ws, n, slot);
    RequestsLand(lay, sources, ws, n);
    ArrivedFills(lay, ws, n, slot);
    WeatherAsks(s, n, slot);
    WeatherLast(s, n);
    Sides(lay, WorldAt(s, ask, n - 1).plant.history, slot);
    Sides(lay, WorldAt(s, ask, n).plant.history, slot);
  }

  lemma WeatherLast(s: Scene, n: nat)
    requires 0 < n <= U64_MAX
    ensures Weathers(s, n)[n - 1] == WeatherAt(s, n)
  {
    hide WeatherAt;
  }

  lemma Sides(lay: Layout, h: seq<Logged>, s: Slot)
    ensures Delivered(lay, h, s) == Total(lay.ts, h, Outputs, s) && Taken(lay, h, s) == Total(lay.ts, h, Inputs, s)
  {
    hide Total;
  }
}
