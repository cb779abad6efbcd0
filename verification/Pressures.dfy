/** Scheduled pressures: activation windows, derived overlays, and fractional source injection. */
module Pressures {
  import opened Base
  import opened Order
  import opened Sl1Scene

  const U32_MAX: u32 := U32_RANGE - 1

  /** (pressure, place, thing) */
  type CarryKey = (Id, Id, Id)

  datatype EventKind = Activated | Deactivated
  datatype PressureEvent = PressureEvent(id: Id, kind: EventKind, tick: u64)

  datatype PressureState = PressureState(
    active: map<Id, u64>,
    growth: map<Id, u32>, quota: map<Bucket, nat>, outaged: set<Id>,
    carry: map<CarryKey, u64>,
    warned: set<Id>,
    events: seq<PressureEvent>,
    warnings: seq<(Id, u64)>)

  const Calm := PressureState(map[], map[], map[], {}, map[], {}, [], [])

  /** `whole` units asked for in a storage slot, before clamping to its room. */
  datatype Request = Request(slot: Slot, whole: u64)

  ghost predicate PressureOk(p: Pressure) {
    && p.duration > 0 && p.atTick + p.duration <= MAX_TICKS
    && match p.params
       case SourceMultiplier(_, milli) => 0 < milli <= 1_000_000
       case DemandGrowth(spawn) => 0 < spawn <= 64
       case QuotaReduction(_, percent) => 0 < percent <= 100
       case _ => true
  }

  ghost predicate PressuresOk(ps: seq<Pressure>) {
    && |ps| <= MAX_ITEMS
    && SortedBy(ps, PressureKey)
    && forall i :: 0 <= i < |ps| ==> PressureOk(ps[i])
  }

  function FindPressure(ps: seq<Pressure>, id: Id): (r: Option<Pressure>)
    ensures r.Some? ==> r.value in ps && r.value.id == id
    ensures r.None? ==> forall p :: p in ps ==> p.id != id
  {
    if ps == [] then None
    else if ps[0].id == id then Some(ps[0])
    else FindPressure(ps[1..], id)
  }

  // ---- One tick ----

  predicate Over(ps: seq<Pressure>, id: Id, now: u64) {
    var p := FindPressure(ps, id);
    p.Some? && now >= p.value.EndTick()
  }

  function Ending(ps: seq<Pressure>, ids: seq<Id>, now: u64): seq<Id> {
    if ids == [] then []
    else
      Ending(ps, ids[..|ids| - 1], now) + if Over(ps, ids[|ids| - 1], now) then [ids[|ids| - 1]] else []
  }

  function Deactivate(s: PressureState, id: Id, now: u64): PressureState {
    s.(active := s.active - {id},
       carry := map k | k in s.carry && k.0 != id :: s.carry[k],
       warned := s.warned - {id},
       events := s.events + [PressureEvent(id, Deactivated, now)])
  }

  function DeactivateAll(s: PressureState, ids: seq<Id>, now: u64): PressureState {
    if ids == [] then s
    else Deactivate(DeactivateAll(s, ids[..|ids| - 1], now), ids[|ids| - 1], now)
  }

  predicate InWindow(p: Pressure, now: u64) {
    p.atTick <= now < p.EndTick()
  }

  function Activate(s: PressureState, p: Pressure, now: u64): PressureState {
    if InWindow(p, now) && p.id !in s.active then
      var mute := p.params.UnsupportedPressure? && p.id !in s.warned;
      s.(active := s.active[p.id := now],
         events := s.events + [PressureEvent(p.id, Activated, now)],
         warned := if mute then s.warned + {p.id} else s.warned,
         warnings := if mute then s.warnings + [(p.id, now)] else s.warnings)
    else s
  }

  function ActivateAll(s: PressureState, ps: seq<Pressure>, now: u64): PressureState {
    if ps == [] then s
    else Activate(ActivateAll(s, ps[..|ps| - 1], now), ps[|ps| - 1], now)
  }

  function GetGrowth(m: map<Id, u32>, d: Id): u32 { if d in m then m[d] else 0 }
  function GetQuota(m: map<Bucket, nat>, b: Bucket): nat { if b in m then m[b] else 0 }

  /** Overlays of one pressure on top of those of the pressures before it. */
  function Overlay(s: PressureState, p: Pressure): PressureState {
    match p.params
    case DemandGrowth(spawn) =>
      s.(growth := s.growth[p.target := Min(GetGrowth(s.growth, p.target) + spawn, U32_MAX)])
    case QuotaReduction(bucket, percent) =>
      var b := (p.target, bucket);
      s.(quota := s.quota[b := Min(Min(GetQuota(s.quota, b) + percent, 255), 100)])
    case PathOutage => s.(outaged := s.outaged + {p.target})
    case _ => s
  }

  function OverlayAll(s: PressureState, ps: seq<Pressure>): PressureState {
    if ps == [] then s.(growth := map[], quota := map[], outaged := {})
    else
      var p := ps[|ps| - 1];
      var before := OverlayAll(s, ps[..|ps| - 1]);
      if p.id in s.active then Overlay(before, p) else before
  }

  function KeyOf(p: Pressure): CarryKey
    requires p.params.SourceMultiplier?
  {
    (p.id, p.target, p.params.thing)
  }

  /** The carry of an active source gains its rate; whole units leave it as a request. */
  function Pump(s: PressureState, p: Pressure): (PressureState, seq<Request>)
    requires p.params.SourceMultiplier?
  {
    var total := SatAdd(Get(s.carry, KeyOf(p)), p.params.milli);
    var whole := total / 1000;
    (s.(carry := s.carry[KeyOf(p) := total % 1000]),
     if whole == 0 then [] else [Request((p.target, p.params.thing), whole)])
  }

  function PumpAll(s: PressureState, ps: seq<Pressure>): (PressureState, seq<Request>) {
    if ps == [] then (s, [])
    else
      var (before, requests) := PumpAll(s, ps[..|ps| - 1]);
      var p := ps[|ps| - 1];
      if p.id in s.active && p.params.SourceMultiplier? then
        var (after, more) := Pump(before, p);
        (after, requests + more)
      else (before, requests)
  }

  ghost function PressureTick(ps: seq<Pressure>, s: PressureState, now: u64): (PressureState, seq<Request>) {
    if ps == [] then (s, [])
    else
      var s1 := DeactivateAll(s, Ending(ps, Listing(s.active.Keys, Self), now), now);
      var s2 := ActivateAll(s1, ps, now);
      PumpAll(OverlayAll(s2, ps), ps)
  }

  // ---- What the overlays mean to their readers ----

  function EffectiveSpawnCount(growth: map<Id, u32>, demand: Id): u32 {
    Min(1 + GetGrowth(growth, demand), U32_MAX)
  }

  function EffectiveCapacity(quota: map<Bucket, nat>, b: Bucket, base: u64): u64 {
    var reduction := GetQuota(quota, b);
    if reduction == 0 then base
    else
      var remaining: nat := if reduction >= 100 then 0 else 100 - reduction;
      Min(base * remaining, U64_MAX) / 100
  }

  /** A reduction never adds capacity, a larger one never leaves more, and short of saturation it is the floor formula. */
  lemma CapacityAntitone(q: map<Bucket, nat>, r: map<Bucket, nat>, b: Bucket, base: u64)
    requires GetQuota(q, b) <= GetQuota(r, b)
    ensures EffectiveCapacity(r, b, base) <= EffectiveCapacity(q, b, base) <= base
    ensures base * 100 <= U64_MAX && GetQuota(q, b) <= 100 ==> EffectiveCapacity(q, b, base) == base * (100 - GetQuota(q, b)) / 100
  {
    var x: nat := if GetQuota(q, b) >= 100 then 0 else 100 - GetQuota(q, b);
    var y: nat := if GetQuota(r, b) >= 100 then 0 else 100 - GetQuota(r, b);
    Scale(base, y, x);
    Scale(base, x, 100);
    DivMonotone(Min(base * y, U64_MAX), Min(base * x, U64_MAX));
    DivMonotone(Min(base * x, U64_MAX), base * 100);
  }

  lemma Scale(base: nat, x: nat, y: nat)
    requires x <= y
    ensures base * x <= base * y
  {
    assert base * y == base * x + base * (y - x);
  }

  lemma DivMonotone(a: nat, b: nat)
    requires a <= b
    ensures a / 100 <= b / 100
  {
  }

  // ---- Runs: every part of the state is a function of the tick ----

  ghost function PressureAt(ps: seq<Pressure>, n: nat): PressureState
    requires n <= U64_MAX
  {
    if n == 0 then Calm else PressureTick(ps, PressureAt(ps, n - 1), n).0
  }

  /** The first tick that can see the pressure: schedules are first looked at on tick 1. */
  function First(p: Pressure): nat { Max(1, p.atTick) }

  /** Units a source asks for on tick n: what its whole inflow up to n exceeds that up to n - 1 by. */
  function Whole(p: Pressure, n: nat): nat
    requires p.params.SourceMultiplier? && n >= First(p)
  {
    ((n - First(p) + 1) * p.params.milli) / 1000 - ((n - First(p)) * p.params.milli) / 1000
  }

  function Wanted(ps: seq<Pressure>, n: u64): seq<Request> {
    if ps == [] then []
    else
      var p := ps[|ps| - 1];
      Wanted(ps[..|ps| - 1], n) +
      if InWindow(p, n) && n > 0 && p.params.SourceMultiplier? && 0 < Whole(p, n) <= U64_MAX
      then [Request((p.target, p.params.thing), Whole(p, n))] else []
  }

  function GrowthSum(ps: seq<Pressure>, n: u64, demand: Id): nat {
    if ps == [] then 0
    else
      var p := ps[|ps| - 1];
      GrowthSum(ps[..|ps| - 1], n, demand) +
      if InWindow(p, n) && p.params.DemandGrowth? && p.target == demand then p.params.spawn else 0
  }

  function QuotaSum(ps: seq<Pressure>, n: u64, b: Bucket): nat {
    if ps == [] then 0
    else
      var p := ps[|ps| - 1];
      QuotaSum(ps[..|ps| - 1], n, b) +
      if InWindow(p, n) && p.params.QuotaReduction? && (p.target, p.params.bucket) == b then p.params.percent else 0
  }

  /** `active` names exactly the pressures whose window holds n, each with its first tick. */
  ghost predicate ActiveExactly(ps: seq<Pressure>, active: map<Id, u64>, n: u64) {
    && (forall p :: p in ps ==> (p.id in active <==> InWindow(p, n)))
    && (forall p :: p in ps && p.id in active ==> active[p.id] == First(p))
    && (forall id :: id in active ==> FindPressure(ps, id).Some?)
  }

  /** After k ticks of a source at m milli-units, its carry is k m mod 1000; nothing else carries. */
  ghost predicate CarryExactly(ps: seq<Pressure>, carry: map<CarryKey, u64>, n: u64) {
    && (forall p :: p in ps && InWindow(p, n) && p.params.SourceMultiplier? && n > 0 ==>
          KeyOf(p) in carry && carry[KeyOf(p)] == ((n - First(p) + 1) * p.params.milli) % 1000)
    && (forall k :: k in carry ==> n > 0 && LiveKey(ps, k, n))
  }

  lemma FoundUnique(ps: seq<Pressure>, p: Pressure)
    requires SortedBy(ps, PressureKey) && p in ps
    ensures FindPressure(ps, p.id) == Some(p)
  {
    var q := FindPressure(ps, p.id).value;
    var i :| 0 <= i < |ps| && ps[i] == p;
    var j :| 0 <= j < |ps| && ps[j] == q;
    SortedDistinct(ps, PressureKey, i, j);
  }

  lemma {:induction false} EndingMembers(ps: seq<Pressure>, ids: seq<Id>, now: u64)
    ensures forall id :: id in Ending(ps, ids, now) <==> id in ids && Over(ps, id, now)
  {
    if ids != [] {
      EndingMembers(ps, ids[..|ids| - 1], now);
      assert ids == ids[..|ids| - 1] + [ids[|ids| - 1]];
    }
  }

  /** The carries of all pressures but the ones named. */
  function CarriesBut(carry: map<CarryKey, u64>, ids: seq<Id>): map<CarryKey, u64> {
    map k | k in carry && k.0 !in ids :: carry[k]
  }

  lemma {:induction false} DeactivateEffect(s: PressureState, ids: seq<Id>, now: u64)
    ensures var r := DeactivateAll(s, ids, now);
      && r.active == s.active - (set id | id in ids)
      && r.carry == CarriesBut(s.carry, ids)
  {
    if ids != [] {
      DeactivateEffect(s, ids[..|ids| - 1], now);
      assert ids == ids[..|ids| - 1] + [ids[|ids| - 1]];
    }
  }

  lemma SortedIdsDiffer(ps: seq<Pressure>, i: nat, j: nat)
    requires SortedBy(ps, PressureKey) && i < |ps| && j < |ps| && i != j
    ensures ps[i].id != ps[j].id
  {
    if ps[i].id == ps[j].id { SortedDistinct(ps, PressureKey, i, j); }
  }

  /** Activation leaves alone whatever is not listed. */
  lemma {:induction false} ActivateElse(s: PressureState, ps: seq<Pressure>, now: u64, id: Id)
    requires forall j :: 0 <= j < |ps| ==> ps[j].id != id
    ensures var r := ActivateAll(s, ps, now);
      r.carry == s.carry && (id in r.active <==> id in s.active) && (id in s.active ==> r.active[id] == s.active[id])
  {
    if ps != [] {
      ActivateElse(s, ps[..|ps| - 1], now, id);
    }
  }

  lemma {:induction false} ActivateAt(s: PressureState, ps: seq<Pressure>, now: u64, i: nat)
    requires SortedBy(ps, PressureKey) && i < |ps|
    ensures var r := ActivateAll(s, ps, now); var id := ps[i].id;
      && r.carry == s.carry
      && (id in r.active <==> id in s.active || InWindow(ps[i], now))
      && (id in r.active ==> r.active[id] == if id in s.active then s.active[id] else now)
  {
    var front := ps[..|ps| - 1];
    if i < |front| {
      ActivateAt(s, front, now, i);
      SortedIdsDiffer(ps, i, |front|);
    } else {
      forall j | 0 <= j < |front| ensures front[j].id != ps[i].id {
        SortedIdsDiffer(ps, j, i);
      }
      ActivateElse(s, front, now, ps[i].id);
    }
  }

  /** One tick takes the active set from what it was on tick n - 1 to what it is on tick n. */
  lemma ActiveStep(ps: seq<Pressure>, s: PressureState, n: u64)
    requires PressuresOk(ps) && n > 0
    requires if n == 1 then s.active == map[] else ActiveExactly(ps, s.active, n - 1)
    ensures var s1 := DeactivateAll(s, Ending(ps, Listing(s.active.Keys, Self), n), n);
      ActiveExactly(ps, ActivateAll(s1, ps, n).active, n)
  {
    var ids := Ending(ps, Listing(s.active.Keys, Self), n);
    var s1 := DeactivateAll(s, ids, n);
    var s2 := ActivateAll(s1, ps, n);
    ListingSorted(s.active.Keys, Self);
    EndingMembers(ps, Listing(s.active.Keys, Self), n);
    DeactivateEffect(s, ids, n);
    forall p | p in ps
      ensures (p.id in s2.active <==> InWindow(p, n)) && (p.id in s2.active ==> s2.active[p.id] == First(p))
    {
      var i :| 0 <= i < |ps| && ps[i] == p;
      FoundUnique(ps, p);
      ActivateAt(s1, ps, n, i);
      assert PressureOk(ps[i]);
    }
    forall id | id in s2.active ensures FindPressure(ps, id).Some? {
      if FindPressure(ps, id).None? {
        ActivateElse(s1, ps, n, id);
      }
    }
  }

  /** The active set agrees with the windows at tick n. */
  ghost predicate Windows(ps: seq<Pressure>, active: map<Id, u64>, n: u64) {
    forall i :: 0 <= i < |ps| ==> (ps[i].id in active <==> InWindow(ps[i], n))
  }

  lemma {:induction false} OverlaySums(s: PressureState, ps: seq<Pressure>, n: u64)
    requires Windows(ps, s.active, n)
    ensures var r := OverlayAll(s, ps);
      && r.active == s.active && r.carry == s.carry
      && (forall b :: GetQuota(r.quota, b) == Min(100, QuotaSum(ps, n, b)))
      && (forall d :: GetGrowth(r.growth, d) == Min(U32_MAX, GrowthSum(ps, n, d)))
      && (forall l :: l in r.outaged <==> exists i :: 0 <= i < |ps| && InWindow(ps[i], n) && ps[i].params.PathOutage? && ps[i].target == l)
  {
    if ps != [] {
      var front, last := ps[..|ps| - 1], ps[|ps| - 1];
      OverlaySums(s, front, n);
      var r := OverlayAll(s, ps);
      forall l ensures l in r.outaged <==> exists i :: 0 <= i < |ps| && InWindow(ps[i], n) && ps[i].params.PathOutage? && ps[i].target == l {
        if i :| 0 <= i < |ps| && InWindow(ps[i], n) && ps[i].params.PathOutage? && ps[i].target == l {
          assert i < |front| ==> front[i] == ps[i];
        } else {
          assert forall i :: 0 <= i < |front| ==> front[i] == ps[i];
        }
      }
    }
  }

  lemma {:induction false} GrowthBounded(ps: seq<Pressure>, n: u64, d: Id)
    requires forall i :: 0 <= i < |ps| ==> PressureOk(ps[i])
    ensures GrowthSum(ps, n, d) <= 64 * |ps|
  {
    if ps != [] { GrowthBounded(ps[..|ps| - 1], n, d); }
  }

  lemma Spill(before: nat, m: nat)
    ensures (before % 1000 + m) % 1000 == (before + m) % 1000
    ensures (before % 1000 + m) / 1000 == (before + m) / 1000 - before / 1000
  {
  }

  /** The carries each active source finds when tick n starts pumping. */
  ghost predicate CarryBefore(ps: seq<Pressure>, carry: map<CarryKey, u64>, n: u64) {
    && n > 0
    && (forall i :: 0 <= i < |ps| && InWindow(ps[i], n) && ps[i].params.SourceMultiplier? ==>
          Get(carry, KeyOf(ps[i])) == ((n - First(ps[i])) * ps[i].params.milli) % 1000)
    && (forall k :: k in carry ==> LiveKey(ps, k, n))
  }

  lemma PumpOne(s: PressureState, p: Pressure, n: u64)
    requires PressureOk(p) && p.params.SourceMultiplier? && InWindow(p, n) && n > 0
    requires Get(s.carry, KeyOf(p)) == ((n - First(p)) * p.params.milli) % 1000
    ensures Pump(s, p).0 == s.(carry := s.carry[KeyOf(p) := ((n - First(p) + 1) * p.params.milli) % 1000])
    ensures Pump(s, p).1 == if 0 < Whole(p, n) <= U64_MAX then [Request((p.target, p.params.thing), Whole(p, n))] else []
  {
    var k, m := n - First(p), p.params.milli;
    assert (k + 1) * m == k * m + m;
    Spill(k * m, m);
  }

  /** Sources before position i have been pumped, the others still hold what they had. */
  ghost predicate PumpedUpTo(ps: seq<Pressure>, before: map<CarryKey, u64>, carry: map<CarryKey, u64>, i: nat, n: u64) {
    && n > 0
    && (forall j :: 0 <= j < |ps| && InWindow(ps[j], n) && ps[j].params.SourceMultiplier? ==>
          if j < i then KeyOf(ps[j]) in carry && carry[KeyOf(ps[j])] == ((n - First(ps[j]) + 1) * ps[j].params.milli) % 1000
          else Get(carry, KeyOf(ps[j])) == Get(before, KeyOf(ps[j])))
    && (forall k :: k in carry ==> LiveKey(ps, k, n))
  }

  lemma PumpedNext(ps: seq<Pressure>, before: map<CarryKey, u64>, carry: map<CarryKey, u64>, i: nat, n: u64, carry': map<CarryKey, u64>)
    requires SortedBy(ps, PressureKey) && i < |ps| && PumpedUpTo(ps, before, carry, i, n)
    requires carry' == if InWindow(ps[i], n) && ps[i].params.SourceMultiplier?
                       then carry[KeyOf(ps[i]) := ((n - First(ps[i]) + 1) * ps[i].params.milli) % 1000] else carry
    ensures PumpedUpTo(ps, before, carry', i + 1, n)
  {
    forall j | 0 <= j < |ps| && j != i ensures ps[j].id != ps[i].id {
      SortedIdsDiffer(ps, j, i);
    }
  }

  /** What the source at position i adds to the pumping of those before it. */
  lemma PumpLast(s: PressureState, before: PressureState, ps: seq<Pressure>, i: nat, n: u64)
    requires i < |ps| && PressureOk(ps[i]) && n > 0
    requires ps[i].id in s.active <==> InWindow(ps[i], n)
    requires before == PumpAll(s, ps[..i]).0 && before == s.(carry := before.carry)
    requires PumpAll(s, ps[..i]).1 == Wanted(ps[..i], n)
    requires InWindow(ps[i], n) && ps[i].params.SourceMultiplier? ==>
               Get(before.carry, KeyOf(ps[i])) == ((n - First(ps[i])) * ps[i].params.milli) % 1000
    ensures PumpAll(s, ps[..i + 1]).1 == Wanted(ps[..i + 1], n)
    ensures PumpAll(s, ps[..i + 1]).0 == s.(carry :=
      if InWindow(ps[i], n) && ps[i].params.SourceMultiplier?
      then before.carry[KeyOf(ps[i]) := ((n - First(ps[i]) + 1) * ps[i].params.milli) % 1000] else before.carry)
  {
    var p := ps[i];
    assert ps[..i + 1][..i] == ps[..i] && ps[..i + 1][i] == p;
    if InWindow(p, n) && p.params.SourceMultiplier? {
      PumpOne(before, p, n);
    }
  }

  lemma {:induction false} PumpPrefix(s: PressureState, ps: seq<Pressure>, i: nat, n: u64)
    requires PressuresOk(ps) && Windows(ps, s.active, n) && CarryBefore(ps, s.carry, n) && i <= |ps|
    ensures PumpAll(s, ps[..i]).1 == Wanted(ps[..i], n)
    ensures PumpAll(s, ps[..i]).0 == s.(carry := PumpAll(s, ps[..i]).0.carry)
    ensures PumpedUpTo(ps, s.carry, PumpAll(s, ps[..i]).0.carry, i, n)
  {
    if i > 0 {
      PumpPrefix(s, ps, i - 1, n);
      var before := PumpAll(s, ps[..i - 1]).0;
      PumpLast(s, before, ps, i - 1, n);
      PumpedNext(ps, s.carry, before.carry, i - 1, n, PumpAll(s, ps[..i]).0.carry);
    }
  }

  /** What the carries and the active set are when tick n begins. */
  ghost predicate BeforeTick(ps: seq<Pressure>, s: PressureState, n: u64) {
    n > 0 && if n == 1 then s.active == map[] && s.carry == map[] else ActiveExactly(ps, s.active, n - 1) && CarryExactly(ps, s.carry, n - 1)
  }

  lemma SourceCarries(ps: seq<Pressure>, s: PressureState, n: u64, ids: seq<Id>, carry: map<CarryKey, u64>, p: Pressure)
    requires PressuresOk(ps) && BeforeTick(ps, s, n) && p in ps && InWindow(p, n) && p.params.SourceMultiplier?
    requires p.id !in ids && carry == CarriesBut(s.carry, ids)
    ensures Get(carry, KeyOf(p)) == ((n - First(p)) * p.params.milli) % 1000
  {
    assert PressureOk(p);
    if InWindow(p, n - 1) && n > 1 {
      assert KeyOf(p) in carry;
    } else {
      assert n == First(p);
      forall q | q in ps && q.id == p.id ensures q == p {
        FoundUnique(ps, q);
        FoundUnique(ps, p);
      }
      assert (n - First(p)) * p.params.milli == 0;
    }
  }

  ghost predicate EndsExactly(ps: seq<Pressure>, active: map<Id, u64>, ids: seq<Id>, n: u64) {
    forall id :: id in ids <==> id in active && Over(ps, id, n)
  }

  lemma CarriesLive(ps: seq<Pressure>, s: PressureState, n: u64, ids: seq<Id>, k: CarryKey)
    requires PressuresOk(ps) && BeforeTick(ps, s, n) && k in CarriesBut(s.carry, ids) && EndsExactly(ps, s.active, ids, n)
    ensures LiveKey(ps, k, n)
  {
    var p :| p in ps && InWindow(p, n - 1) && p.params.SourceMultiplier? && k == KeyOf(p);
    FoundUnique(ps, p);
    assert p.id in s.active;
    assert InWindow(p, n);
  }

  lemma CarryFrom(ps: seq<Pressure>, s: PressureState, n: u64, ids: seq<Id>)
    requires PressuresOk(ps) && BeforeTick(ps, s, n) && EndsExactly(ps, s.active, ids, n)
    ensures CarryBefore(ps, CarriesBut(s.carry, ids), n)
  {
    forall i | 0 <= i < |ps| && InWindow(ps[i], n) && ps[i].params.SourceMultiplier?
      ensures Get(CarriesBut(s.carry, ids), KeyOf(ps[i])) == ((n - First(ps[i])) * ps[i].params.milli) % 1000
    {
      NotOver(ps, ps[i], n);
      SourceCarries(ps, s, n, ids, CarriesBut(s.carry, ids), ps[i]);
    }
    forall k | k in CarriesBut(s.carry, ids) ensures LiveKey(ps, k, n) {
      CarriesLive(ps, s, n, ids, k);
    }
    hide BeforeTick, PressuresOk, CarriesBut, InWindow, First;
  }

  /** Deactivation clears exactly the carries of the pressures it ends. */
  lemma CarryKept(ps: seq<Pressure>, s: PressureState, n: u64)
    requires PressuresOk(ps) && BeforeTick(ps, s, n)
    ensures CarryBefore(ps, DeactivateAll(s, Ending(ps, Listing(s.active.Keys, Self), n), n).carry, n)
  {
    hide *;
    EndedExactly(ps, s, n);
    CarryFrom(ps, s, n, Ending(ps, Listing(s.active.Keys, Self), n));
  }

  lemma EndedExactly(ps: seq<Pressure>, s: PressureState, n: u64)
    ensures var ids := Ending(ps, Listing(s.active.Keys, Self), n);
      EndsExactly(ps, s.active, ids, n) && DeactivateAll(s, ids, n).carry == CarriesBut(s.carry, ids)
  {
    hide CarriesBut, DeactivateAll, Ending, Over;
    ListingSorted(s.active.Keys, Self);
    EndingMembers(ps, Listing(s.active.Keys, Self), n);
    DeactivateEffect(s, Ending(ps, Listing(s.active.Keys, Self), n), n);
  }

  ghost predicate LiveKey(ps: seq<Pressure>, k: CarryKey, n: u64) {
    exists p :: p in ps && InWindow(p, n) && p.params.SourceMultiplier? && k == KeyOf(p)
  }

  lemma NotOver(ps: seq<Pressure>, p: Pressure, n: u64)
    requires PressuresOk(ps) && p in ps && InWindow(p, n)
    ensures !Over(ps, p.id, n)
  {
    FoundUnique(ps, p);
  }

  /** The overlays are the capped sums over the pressures whose window holds n. */
  ghost predicate OverlaysExactly(ps: seq<Pressure>, s: PressureState, n: u64) {
    && (forall b :: GetQuota(s.quota, b) == Min(100, QuotaSum(ps, n, b)))
    && (forall d :: GetGrowth(s.growth, d) == GrowthSum(ps, n, d))
    && (forall l :: l in s.outaged <==> exists i :: 0 <= i < |ps| && InWindow(ps[i], n) && ps[i].params.PathOutage? && ps[i].target == l)
  }

  /**
   * After tick n: the active pressures are those whose window holds n; each source has carried k m mod 1000
   * and asked for the difference of whole inflows; and the overlays are the sums over the active pressures.
   */
  lemma {:induction false} PressureClosedForm(ps: seq<Pressure>, n: u64)
    requires PressuresOk(ps) && n > 0
    ensures ActiveExactly(ps, PressureAt(ps, n).active, n)
    ensures CarryExactly(ps, PressureAt(ps, n).carry, n)
    ensures OverlaysExactly(ps, PressureAt(ps, n), n)
    ensures PressureTick(ps, PressureAt(ps, n - 1), n).1 == Wanted(ps, n)
    decreases n
  {
    var s := PressureAt(ps, n - 1);
    if n > 1 {
      PressureClosedForm(ps, n - 1);
    } else {
      assert s == Calm;
    }
    if ps == [] {
      PressureEmpty(n);
    } else {
      ActiveStep(ps, s, n);
      CarryKept(ps, s, n);
      var s1 := DeactivateAll(s, Ending(ps, Listing(s.active.Keys, Self), n), n);
      ActivateAt(s1, ps, n, 0);
      Overlaid(ps, ActivateAll(s1, ps, n), n);
    }
  }

  lemma {:induction false} PressureEmpty(n: nat)
    requires n <= U64_MAX
    ensures PressureAt([], n) == Calm
  {
    if n > 0 { PressureEmpty(n - 1); }
  }

  lemma Overlaid(ps: seq<Pressure>, s: PressureState, n: u64)
    requires PressuresOk(ps) && n > 0
    requires ActiveExactly(ps, s.active, n) && CarryBefore(ps, s.carry, n)
    ensures var (r, requests) := PumpAll(OverlayAll(s, ps), ps);
      && r.active == s.active && CarryExactly(ps, r.carry, n) && OverlaysExactly(ps, r, n) && requests == Wanted(ps, n)
  {
    OverlaySums(s, ps, n);
    var s' := OverlayAll(s, ps);
    PumpPrefix(s', ps, |ps|, n);
    assert ps[..|ps|] == ps;
    forall d ensures GrowthSum(ps, n, d) <= U32_MAX {
      GrowthBounded(ps, n, d);
    }
    CarryAll(ps, s'.carry, PumpAll(s', ps).0.carry, n);
  }

  lemma CarryAll(ps: seq<Pressure>, before: map<CarryKey, u64>, carry: map<CarryKey, u64>, n: u64)
    requires PumpedUpTo(ps, before, carry, |ps|, n)
    ensures CarryExactly(ps, carry, n)
  {
    forall p | p in ps && InWindow(p, n) && p.params.SourceMultiplier?
      ensures KeyOf(p) in carry && carry[KeyOf(p)] == ((n - First(p) + 1) * p.params.milli) % 1000
    {
      var j :| 0 <= j < |ps| && ps[j] == p;
    }
  }

  /** All the units a source has asked for by tick n. */
  function Requested(p: Pressure, n: nat): nat
    requires p.params.SourceMultiplier?
    decreases n
  {
    if n < First(p) || n == 0 then 0 else Requested(p, n - 1) + Whole(p, n)
  }

  lemma {:induction false} RequestedTotal(p: Pressure, n: nat)
    requires p.params.SourceMultiplier? && n + 1 >= First(p)
    ensures Requested(p, n) == ((n + 1 - First(p)) * p.params.milli) / 1000
    decreases n
  {
    if n >= First(p) {
      RequestedTotal(p, n - 1);
    } else {
      assert (n + 1 - First(p)) * p.params.milli == 0;
    }
  }
}
