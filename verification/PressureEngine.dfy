/** The pressure system as the engine runs it, in place, against PressureTick. */
module PressureEngine {
  import opened Base
  import opened Order
  import opened Sl1Scene
  import opened Pressures
  import opened Plants
  import opened Sl1State
  import TransformEngine

  lemma AnyIds(ids: set<Id>)
    ensures InjectiveOn(ids, Self)
  {
  }

  method DueToEnd(ps: seq<Pressure>, active: map<Id, u64>, now: u64) returns (ids: seq<Id>)
    ensures ids == Ending(ps, Listing(active.Keys, Self), now)
  {
    AnyIds(active.Keys);
    var keys := Collect(active.Keys, Self);
    ids := [];
    for i := 0 to |keys|
      invariant ids == Ending(ps, keys[..i], now)
    {
      Prefix(keys, i);
      var def := FindPressure(ps, keys[i]);
      if def.Some? && now >= def.value.EndTick() { ids := ids + [keys[i]]; }
    }
    assert keys[..|keys|] == keys;
  }

  method EndPressures(ids: seq<Id>, rt: Sl1RuntimeState, now: u64)
    modifies rt`pressure
    ensures rt.pressure == DeactivateAll(old(rt.pressure), ids, now)
  {
    for i := 0 to |ids|
      invariant rt.pressure == DeactivateAll(old(rt.pressure), ids[..i], now)
    {
      Prefix(ids, i);
      var id := ids[i];
      rt.pressure := rt.pressure.(active := rt.pressure.active - {id});
      rt.pressure := rt.pressure.(carry := map k | k in rt.pressure.carry && k.0 != id :: rt.pressure.carry[k]);
      rt.pressure := rt.pressure.(warned := rt.pressure.warned - {id});
      rt.pressure := rt.pressure.(events := rt.pressure.events + [PressureEvent(id, Deactivated, now)]);
    }
    assert ids[..|ids|] == ids;
  }

  /** A window, not an exact tick, activates: a pressure scheduled for tick 0 is first seen on tick 1. */
  method BeginPressures(ps: seq<Pressure>, rt: Sl1RuntimeState, now: u64)
    modifies rt`pressure
    ensures rt.pressure == ActivateAll(old(rt.pressure), ps, now)
  {
    for i := 0 to |ps|
      invariant rt.pressure == ActivateAll(old(rt.pressure), ps[..i], now)
    {
      Prefix(ps, i);
      var def := ps[i];
      if def.atTick <= now && now < def.EndTick() && def.id !in rt.pressure.active {
        rt.pressure := rt.pressure.(active := rt.pressure.active[def.id := now]);
        rt.pressure := rt.pressure.(events := rt.pressure.events + [PressureEvent(def.id, Activated, now)]);
        if def.params.UnsupportedPressure? && def.id !in rt.pressure.warned {
          rt.pressure := rt.pressure.(warned := rt.pressure.warned + {def.id});
          rt.pressure := rt.pressure.(warnings := rt.pressure.warnings + [(def.id, now)]);
        }
      }
    }
    assert ps[..|ps|] == ps;
  }

  method RebuildOverlays(ps: seq<Pressure>, rt: Sl1RuntimeState)
    modifies rt`pressure
    ensures rt.pressure == OverlayAll(old(rt.pressure), ps)
  {
    var growth: map<Id, u32>, quota: map<Bucket, nat>, outaged: set<Id> := map[], map[], {};
    for i := 0 to |ps|
      invariant unchanged(rt`pressure)
      invariant rt.pressure.(growth := growth, quota := quota, outaged := outaged) == OverlayAll(rt.pressure, ps[..i])
    {
      Prefix(ps, i);
      OverlayActive(rt.pressure, ps[..i]);
      var def := ps[i];
      if def.id in rt.pressure.active {
        match def.params {
          case DemandGrowth(spawn) => growth := growth[def.target := Min(GetGrowth(growth, def.target) + spawn, U32_MAX)];
          case QuotaReduction(bucket, percent) =>
            var b := (def.target, bucket);
            quota := quota[b := Min(Min(GetQuota(quota, b) + percent, 255), 100)];
          case PathOutage => outaged := outaged + {def.target};
          case _ =>
        }
      }
    }
    assert ps[..|ps|] == ps;
    rt.pressure := rt.pressure.(growth := growth, quota := quota, outaged := outaged);
  }

  lemma {:induction false} OverlayActive(s: PressureState, ps: seq<Pressure>)
    ensures OverlayAll(s, ps).active == s.active
  {
    if ps != [] { OverlayActive(s, ps[..|ps| - 1]); }
  }

  // ---- Source injection ----

  function SourcesOf(active: map<Id, u64>, ps: seq<Pressure>): seq<Pressure> {
    if ps == [] then []
    else
      var p := ps[|ps| - 1];
      SourcesOf(active, ps[..|ps| - 1]) + if p.id in active && p.params.SourceMultiplier? then [p] else []
  }

  lemma {:induction false} SourcesPump(s: PressureState, ps: seq<Pressure>)
    ensures PumpAll(s, SourcesOf(s.active, ps)) == PumpAll(s, ps)
    ensures forall p :: p in SourcesOf(s.active, ps) ==> p.id in s.active && p.params.SourceMultiplier?
  {
    if ps != [] {
      var front, p := ps[..|ps| - 1], ps[|ps| - 1];
      SourcesPump(s, front);
      hide Pump;
      var live := SourcesOf(s.active, front);
      if p.id in s.active && p.params.SourceMultiplier? {
        PumpLastOf(s, live, p);
      } else {
        assert live + [] == live;
      }
    }
  }

  lemma PumpLastOf(s: PressureState, ps: seq<Pressure>, p: Pressure)
    requires p.id in s.active && p.params.SourceMultiplier?
    ensures PumpAll(s, ps + [p]) == (Pump(PumpAll(s, ps).0, p).0, PumpAll(s, ps).1 + Pump(PumpAll(s, ps).0, p).1)
  {
    assert (ps + [p])[..|ps|] == ps;
  }

  lemma InjectMore(inv: map<Slot, u64>, caps: map<Slot, u64>, rs: seq<Request>, r: Request)
    ensures InjectAll(inv, caps, rs + [r]) == Inject(InjectAll(inv, caps, rs), caps, r)
    ensures InjectAll(inv, caps, rs + []) == InjectAll(inv, caps, rs)
  {
    assert (rs + [r])[..|rs|] == rs && rs + [] == rs;
  }

  lemma {:induction false} PumpActive(s: PressureState, ps: seq<Pressure>)
    ensures PumpAll(s, ps).0.active == s.active
  {
    if ps != [] { PumpActive(s, ps[..|ps| - 1]); }
  }

  /** The live sources are listed first; then each gains its rate and pours its whole units, up to the room there is. */
  method ApplySourceInjection(s: Scene, rt: Sl1RuntimeState)
    modifies rt`pressure, rt`inventories
    ensures rt.pressure == PumpAll(old(rt.pressure), s.pressure).0
    ensures rt.inventories == InjectAll(old(rt.inventories), CapsOf(s.places).storage, PumpAll(old(rt.pressure), s.pressure).1)
  {
    var ps := s.pressure;
    var live: seq<Pressure> := [];
    for i := 0 to |ps|
      invariant live == SourcesOf(rt.pressure.active, ps[..i])
      invariant unchanged(rt)
    {
      Prefix(ps, i);
      if ps[i].id in rt.pressure.active && ps[i].params.SourceMultiplier? { live := live + [ps[i]]; }
    }
    assert ps[..|ps|] == ps;
    SourcesPump(rt.pressure, ps);
    var caps := TransformEngine.PlaceCaps(s.places);
    PourAll(live, caps.storage, rt);
  }

  method PourAll(live: seq<Pressure>, caps: map<Slot, u64>, rt: Sl1RuntimeState)
    requires forall p :: p in live ==> p.id in rt.pressure.active && p.params.SourceMultiplier?
    modifies rt`pressure, rt`inventories
    ensures rt.pressure == PumpAll(old(rt.pressure), live).0
    ensures rt.inventories == InjectAll(old(rt.inventories), caps, PumpAll(old(rt.pressure), live).1)
  {
    hide InjectAll;
    PourNothing(rt.inventories, caps);
    for i := 0 to |live|
      invariant rt.pressure == PumpAll(old(rt.pressure), live[..i]).0
      invariant rt.inventories == InjectAll(old(rt.inventories), caps, PumpAll(old(rt.pressure), live[..i]).1)
    {
      Prefix(live, i);
      PumpActive(old(rt.pressure), live[..i]);
      ghost var poured := PumpAll(old(rt.pressure), live[..i]).1;
      var p := live[i];
      var key := (p.id, p.target, p.params.thing);
      var carry := SatAdd(Get(rt.pressure.carry, key), p.params.milli);
      var whole := carry / 1000;
      rt.pressure := rt.pressure.(carry := rt.pressure.carry[key := carry % 1000]);
      InjectMore(old(rt.inventories), caps, poured, Request((p.target, p.params.thing), whole));
      if whole != 0 {
        var slot := (p.target, p.params.thing);
        var headroom := SatSub(Get(caps, slot), Get(rt.inventories, slot));
        rt.inventories := rt.inventories[slot := SatAdd(Get(rt.inventories, slot), Min(whole, headroom))];
      }
    }
    assert live[..|live|] == live;
  }

  lemma PourNothing(inv: map<Slot, u64>, caps: map<Slot, u64>)
    ensures InjectAll(inv, caps, []) == inv
  {
  }

  method RunPressure(s: Scene, rt: Sl1RuntimeState, now: u64)
    modifies rt`pressure, rt`inventories
    ensures var r := PressureTick(s.pressure, old(rt.pressure), now);
      rt.pressure == r.0 && rt.inventories == InjectAll(old(rt.inventories), CapsOf(s.places).storage, r.1)
  {
    if s.pressure == [] { return; }
    var ids := DueToEnd(s.pressure, rt.pressure.active, now);
    EndPressures(ids, rt, now);
    BeginPressures(s.pressure, rt, now);
    RebuildOverlays(s.pressure, rt);
    ApplySourceInjection(s, rt);
  }
}
