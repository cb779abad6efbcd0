/** Runs of the plant under any weather: what every tick keeps, and what the stored state is a function of. */
module PlantRuns {
  import opened Base
  import opened Order
  import opened Sl1Scene
  import opened Pressures
  import opened Plants
  import opened TransformLife
  import opened Reservations

  // ---- What the history of moves adds up to ----

  datatype What = Starts | Deliveries | Aborts | Failures | Misses

  predicate Marks(m: Move, what: What) {
    match what
    case Starts => m.effect.Take?
    case Deliveries => m.effect.Deliver?
    case Aborts => m.effect.GiveBack?
    case Failures => Warns(m, FailedWarning)
    case Misses => Warns(m, SlotMissed)
  }

  function Tally(h: seq<Logged>, id: Id, what: What): nat {
    if h == [] then 0
    else
      var e := h[|h| - 1];
      Tally(h[..|h| - 1], id, what) + if e.def.id == id && Marks(e.move, what) then 1 else 0
  }

  /** Units consumed from a slot by all starts so far. */
  function Consumed(h: seq<Logged>, s: Slot): nat {
    if h == [] then 0
    else
      var e := h[|h| - 1];
      Consumed(h[..|h| - 1], s) + if e.move.effect.Take? && e.def.runsOn == s.0 then AmountOf(e.def.inputs, s.1) else 0
  }

  /** Units produced into a slot by all deliveries so far. */
  function Produced(h: seq<Logged>, s: Slot): nat {
    if h == [] then 0
    else
      var e := h[|h| - 1];
      Produced(h[..|h| - 1], s) + if e.move.effect.Deliver? && e.def.runsOn == s.0 then AmountOf(e.def.outputs, s.1) else 0
  }

  /** The tick of the last delivery into a slot. */
  function LastDelivery(h: seq<Logged>, s: Slot): Option<u64> {
    if h == [] then None
    else
      var e := h[|h| - 1];
      if e.move.effect.Deliver? && e.def.runsOn == s.0 && AmountOf(e.def.outputs, s.1) > 0 then Some(e.tick)
      else LastDelivery(h[..|h| - 1], s)
  }

  lemma Append(h: seq<Logged>, e: Logged)
    ensures forall id, what :: Tally(h + [e], id, what) == Tally(h, id, what) + if e.def.id == id && Marks(e.move, what) then 1 else 0
    ensures forall s :: Consumed(h + [e], s) == Consumed(h, s) + if e.move.effect.Take? && e.def.runsOn == s.0 then AmountOf(e.def.inputs, s.1) else 0
    ensures forall s :: Produced(h + [e], s) == Produced(h, s) + if e.move.effect.Deliver? && e.def.runsOn == s.0 then AmountOf(e.def.outputs, s.1) else 0
    ensures forall s :: LastDelivery(h + [e], s) == (if e.move.effect.Deliver? && e.def.runsOn == s.0 && AmountOf(e.def.outputs, s.1) > 0 then Some(e.tick) else LastDelivery(h, s))
  {
    assert (h + [e])[..|h|] == h;
  }

  // ---- The layout a loaded scene gives ----

  /** What the loader guarantees of a layout. */
  ghost predicate Laid(lay: Layout, sources: set<Slot>) {
    && TransformsOk(lay.ts)
    && lay.initial.Keys == lay.caps.storage.Keys
    && (forall s :: s in lay.initial ==> lay.initial[s] <= lay.caps.storage[s])
    && (forall i, j :: 0 <= i < |lay.ts| && 0 <= j < |lay.ts[i].cost| ==> (lay.ts[i].runsOn, lay.ts[i].cost[j].name) in lay.caps.base)
    && sources <= lay.caps.storage.Keys
  }

  /** And whose storage capacities keep 64-bit sums exact. */
  ghost predicate LayoutOk(lay: Layout, sources: set<Slot>) {
    Laid(lay, sources) && CapsFit(lay.ts, lay.caps, sources)
  }

  ghost predicate WeatherOk(w: Weather, sources: set<Slot>) {
    forall i :: 0 <= i < |w.requests| ==> w.requests[i].slot in sources
  }

  // ---- Invariants of the plant as a whole ----

  /** Every unit is accounted for. */
  ghost predicate StockExact(lay: Layout, arrived: Slot -> nat, p: Plant) {
    forall s :: Get(p.inv, s) + Consumed(p.history, s) == Get(lay.initial, s) + arrived(s) + Produced(p.history, s)
  }

  /** What the freshness tag of a slot must be after tick `now`. */
  function TagOf(lay: Layout, h: seq<Logged>, s: Slot, now: u64): Freshness {
    match LastDelivery(h, s)
    case Some(t) => Aged(Ok(t), Budget(lay.budgets, s.1), now)
    case None => if Get(lay.initial, s) > 0 then Aged(Ok(0), Budget(lay.budgets, s.1), now) else NoData
  }

  ghost predicate TagsExact(lay: Layout, p: Plant, now: u64) {
    forall s :: s in p.stamps ==> p.stamps[s] == TagOf(lay, p.history, s, now)
  }

  ghost predicate KeysExact(lay: Layout, p: Plant) {
    && p.inv.Keys == p.stamps.Keys == lay.caps.storage.Keys
    && p.used.Keys == lay.caps.base.Keys
    && p.states.Keys == (set t | t in lay.ts :: t.id)
  }

  ghost predicate PlantOk(lay: Layout, sources: set<Slot>, arrived: Slot -> nat, p: Plant, now: u64) {
    && ReservedExactly(lay.ts, p)
    && WithinLimits(lay.ts, lay.caps, sources, p)
    && StockExact(lay, arrived, p)
    && TagsExact(lay, p, now)
    && KeysExact(lay, p)
  }

  lemma StockStep(lay: Layout, sources: set<Slot>, k: nat, quota: map<Bucket, nat>, arrived: Slot -> nat, p: Plant, m: Move, now: u64)
    requires LayoutOk(lay, sources) && k < |lay.ts| && Legal(lay.ts[k], lay.caps, quota, p, m)
    requires ReservedExactly(lay.ts, p) && WithinLimits(lay.ts, lay.caps, sources, p) && StockExact(lay, arrived, p)
    ensures var p' := Step(lay.ts[k], p, m, now);
      ReservedExactly(lay.ts, p') && WithinLimits(lay.ts, lay.caps, sources, p') && StockExact(lay, arrived, p')
  {
    StepReserved(lay.ts, k, p, m, now);
    StepExact(lay.ts, k, lay.caps, sources, quota, p, m, now);
    StockKept(lay, arrived, p, lay.ts[k], m, now, Step(lay.ts[k], p, m, now));
  }

  lemma StockKept(lay: Layout, arrived: Slot -> nat, p: Plant, def: Transform, m: Move, now: u64, p': Plant)
    requires StockExact(lay, arrived, p) && p'.history == p.history + [Logged(def, now, m)]
    requires forall s :: Get(p'.inv, s) == Get(p.inv, s) + StockChange(def, m, s)
    ensures StockExact(lay, arrived, p')
  {
    Append(p.history, Logged(def, now, m));
  }

  lemma TagStep(lay: Layout, def: Transform, p: Plant, m: Move, now: u64)
    requires TransformOk(def) && TagsExact(lay, p, now)
    requires m.effect.Deliver? ==> forall s :: Weigh(OutputTo(s), def) > 0 ==> s in p.stamps
    ensures TagsExact(lay, Step(def, p, m, now), now) && Step(def, p, m, now).stamps.Keys == p.stamps.Keys
  {
    var p' := Step(def, p, m, now);
    Append(p.history, Logged(def, now, m));
    forall s ensures (s in p'.stamps <==> s in p.stamps) && (s in p'.stamps ==> p'.stamps[s] == TagOf(lay, p'.history, s, now)) {
      if m.effect.Deliver? { StampedAt(p.stamps, def.runsOn, def.outputs, now, s); }
    }
  }

  lemma KeyStep(lay: Layout, sources: set<Slot>, k: nat, p: Plant, m: Move, now: u64)
    requires Laid(lay, sources) && k < |lay.ts| && KeysExact(lay, p)
    requires m.effect.Take? ==> forall s: Slot :: s.0 == lay.ts[k].runsOn ==> AmountOf(lay.ts[k].inputs, s.1) <= Get(p.inv, s)
    requires m.effect.Deliver? ==> forall s :: Weigh(OutputTo(s), lay.ts[k]) > 0 ==> s in p.stamps
    ensures var p' := Step(lay.ts[k], p, m, now);
      p'.inv.Keys == p.inv.Keys && p'.used.Keys == p.used.Keys && p'.states.Keys == p.states.Keys
  {
    var def := lay.ts[k];
    var p' := Step(def, p, m, now);
    forall s ensures s in p'.inv <==> s in p.inv {
      if m.effect.Take? {
        AdjustedKey(p.inv, def.runsOn, def.inputs, Minus, s);
        AmountBounded(def.inputs, s.1);
      } else if m.effect.Deliver? {
        AdjustedKey(p.inv, def.runsOn, def.outputs, Plus, s);
        AmountBounded(def.outputs, s.1);
      }
    }
    forall b ensures b in p'.used <==> b in p.used {
      AdjustedKey(p.used, def.runsOn, def.cost, if m.effect.Take? then Plus else Free, b);
    }
    assert def in lay.ts;
  }

  lemma AdjustedKey(m: map<(Id, Id), u64>, place: Id, items: seq<Item>, op: Op, key: (Id, Id))
    requires ItemsOk(items) && !op.FreeDrop?
    ensures key in AdjustAll(m, place, items, op) ==> key in m || (!op.Free? && exists i :: 0 <= i < |items| && key == (place, items[i].name))
    ensures key in m ==> key in AdjustAll(m, place, items, op)
  {
    AdjustedAt(m, place, items, op, key);
  }

  /** A running transform only delivers into declared slots. */
  lemma RunningOutputs(ts: seq<Transform>, k: nat, p: Plant, caps: Caps, sources: set<Slot>)
    requires TransformsOk(ts) && k < |ts| && ReservedExactly(ts, p) && WithinLimits(ts, caps, sources, p)
    requires IsRunning(p.states, ts[k].id)
    ensures forall s :: Weigh(OutputTo(s), ts[k]) > 0 ==> s in caps.storage
  {
    forall s | Weigh(OutputTo(s), ts[k]) > 0 ensures s in caps.storage {
      RunningSumAt(ts, p.states, OutputTo(s), k, Idle);
      assert SlotWithin(ts, caps, sources, p, s);
    }
  }

  lemma PlantStep(lay: Layout, sources: set<Slot>, k: nat, quota: map<Bucket, nat>, arrived: Slot -> nat, p: Plant, m: Move, now: u64)
    requires LayoutOk(lay, sources) && k < |lay.ts| && Legal(lay.ts[k], lay.caps, quota, p, m)
    requires PlantOk(lay, sources, arrived, p, now)
    ensures PlantOk(lay, sources, arrived, Step(lay.ts[k], p, m, now), now)
  {
    StockStep(lay, sources, k, quota, arrived, p, m, now);
    if m.effect.Take? { StartedFits(lay.ts[k], lay.caps, quota, p); }
    if m.effect.Deliver? { RunningOutputs(lay.ts, k, p, lay.caps, sources); }
    TagStep(lay, lay.ts[k], p, m, now);
    KeyStep(lay, sources, k, p, m, now);
  }

  lemma PlantProcessed(lay: Layout, sources: set<Slot>, k: nat, quota: map<Bucket, nat>, arrived: Slot -> nat, p: Plant, now: u64)
    requires LayoutOk(lay, sources) && k < |lay.ts| && PlantOk(lay, sources, arrived, p, now)
    ensures PlantOk(lay, sources, arrived, ProcessOne(lay.ts[k], lay.caps, quota, p, now), now)
  {
    var def := lay.ts[k];
    MovesLegal(def, lay.caps, quota, p, now);
    PlantStep(lay, sources, k, quota, arrived, p, AdvanceMove(def, lay.caps, quota, p, now), now);
    var p1 := Step(def, p, AdvanceMove(def, lay.caps, quota, p, now), now);
    MovesLegal(def, lay.caps, quota, p1, now);
    PlantStep(lay, sources, k, quota, arrived, p1, TriggerMove(def, lay.caps, quota, p1, now), now);
  }

  lemma ProcessUnfold(lay: Layout, k: nat, quota: map<Bucket, nat>, p: Plant, now: u64)
    requires k < |lay.ts|
    ensures ProcessFirst(lay.ts, k + 1, lay.caps, quota, p, now)
         == ProcessOne(lay.ts[k], lay.caps, quota, ProcessFirst(lay.ts, k, lay.caps, quota, p, now), now)
  {
  }

  lemma {:induction false} PlantProcessedFirst(lay: Layout, sources: set<Slot>, k: nat, quota: map<Bucket, nat>, arrived: Slot -> nat, p: Plant, now: u64)
    requires LayoutOk(lay, sources) && k <= |lay.ts| && PlantOk(lay, sources, arrived, p, now)
    ensures PlantOk(lay, sources, arrived, ProcessFirst(lay.ts, k, lay.caps, quota, p, now), now)
  {
    hide *;
    if k > 0 {
      ProcessUnfold(lay, k - 1, quota, p, now);
      PlantProcessedFirst(lay, sources, k - 1, quota, arrived, p, now);
      PlantProcessed(lay, sources, k - 1, quota, arrived, ProcessFirst(lay.ts, k - 1, lay.caps, quota, p, now), now);
    } else {
      ProcessNone(lay, quota, p, now);
    }
  }

  lemma ProcessNone(lay: Layout, quota: map<Bucket, nat>, p: Plant, now: u64)
    ensures ProcessFirst(lay.ts, 0, lay.caps, quota, p, now) == p
  {
  }

  // ---- What comes before the transforms on a tick ----

  /** Units of a list of requests that end up in a slot. */
  function InjectedTo(inv: map<Slot, u64>, caps: map<Slot, u64>, rs: seq<Request>, s: Slot): nat {
    if rs == [] then 0
    else
      var front, last := rs[..|rs| - 1], rs[|rs| - 1];
      InjectedTo(inv, caps, front, s) + if last.slot == s then Injected(InjectAll(inv, caps, front), caps, last) else 0
  }

  /** Injection fills a slot up to its capacity and no further, and adds no slot. */
  lemma {:induction false} InjectionExact(inv: map<Slot, u64>, caps: map<Slot, u64>, rs: seq<Request>, s: Slot)
    requires forall i :: 0 <= i < |rs| ==> rs[i].slot in inv
    ensures var after := InjectAll(inv, caps, rs);
      && after.Keys == inv.Keys
      && Get(after, s) == Get(inv, s) + InjectedTo(inv, caps, rs, s)
      && Get(after, s) <= Max(Get(inv, s), Get(caps, s))
      && ((forall i :: 0 <= i < |rs| ==> rs[i].slot != s) ==> Get(after, s) == Get(inv, s))
  {
    if rs != [] {
      InjectionExact(inv, caps, rs[..|rs| - 1], s);
      assert rs[|rs| - 1].slot in inv;
    }
  }

  /** Injection keeps a slot within its limit: what it names may gain, but not past the capacity. */
  lemma InjectedWithin(ts: seq<Transform>, caps: Caps, sources: set<Slot>, p: Plant, rs: seq<Request>, s: Slot)
    requires SlotWithin(ts, caps, sources, p, s) && Get(p.pend, s) == RunningSum(ts, p.states, OutputTo(s))
    requires forall i :: 0 <= i < |rs| ==> rs[i].slot in p.inv && rs[i].slot in sources
    ensures var p' := p.(inv := InjectAll(p.inv, caps.storage, rs));
      && SlotWithin(ts, caps, sources, p', s)
      && Get(p'.inv, s) == Get(p.inv, s) + InjectedTo(p.inv, caps.storage, rs, s) && p'.inv.Keys == p.inv.Keys
  {
    InjectionExact(p.inv, caps.storage, rs, s);
    RunningWithinTotal(ts, p.states, OutputTo(s));
    hide InjectAll, InjectedTo, RunningSum, TotalSum;
  }

  lemma InjectionKeeps(lay: Layout, sources: set<Slot>, arrived: Slot -> nat, arrived': Slot -> nat, p: Plant, w: Weather, now: u64)
    requires LayoutOk(lay, sources) && WeatherOk(w, sources) && PlantOk(lay, sources, arrived, p, now)
    requires forall s :: arrived'(s) == arrived(s) + InjectedTo(p.inv, lay.caps.storage, w.requests, s)
    ensures PlantOk(lay, sources, arrived', p.(inv := InjectAll(p.inv, lay.caps.storage, w.requests)), now)
  {
    var p' := p.(inv := InjectAll(p.inv, lay.caps.storage, w.requests));
    hide InjectAll, InjectedTo, RunningSum, TotalSum, Consumed, Produced, LastDelivery, SlotWithin, TransformsOk, CapsFit;
    forall s
      ensures SlotWithin(lay.ts, lay.caps, sources, p', s) && p'.inv.Keys == p.inv.Keys
      ensures Get(p'.inv, s) == Get(p.inv, s) + InjectedTo(p.inv, lay.caps.storage, w.requests, s)
    {
      InjectedWithin(lay.ts, lay.caps, sources, p, w.requests, s);
    }
    assert p'.inv.Keys == p.inv.Keys by { InjectedWithin(lay.ts, lay.caps, sources, p, w.requests, ("", "")); }
  }

  lemma AgeKeeps(lay: Layout, sources: set<Slot>, arrived: Slot -> nat, p: Plant, now: u64)
    requires 0 < now && PlantOk(lay, sources, arrived, p, now - 1)
    ensures PlantOk(lay, sources, arrived, p.(stamps := Age(p.stamps, lay.budgets, now)), now)
  {
    hide RunningSum, Consumed, Produced, AmountOf, LastDelivery;
    var p' := p.(stamps := Age(p.stamps, lay.budgets, now));
    AgeTags(lay, p, now, p');
    assert WithinLimits(lay.ts, lay.caps, sources, p') by {
      forall s ensures SlotWithin(lay.ts, lay.caps, sources, p', s) {
        assert SlotWithin(lay.ts, lay.caps, sources, p, s);
      }
    }
  }

  lemma AgeTags(lay: Layout, p: Plant, now: u64, p': Plant)
    requires 0 < now && TagsExact(lay, p, now - 1) && p' == p.(stamps := Age(p.stamps, lay.budgets, now))
    ensures TagsExact(lay, p', now) && p'.stamps.Keys == p.stamps.Keys
  {
    hide LastDelivery;
  }

  // ---- Runs ----

  ghost function PlantAt(lay: Layout, ws: seq<Weather>, n: nat): Plant
    requires n <= |ws| <= U64_MAX
  {
    if n == 0 then Opening(lay) else PlantTick(lay, PlantAt(lay, ws, n - 1), ws[n - 1], n)
  }

  /** Units injected into a slot by the end of tick n. */
  ghost function Arrived(lay: Layout, ws: seq<Weather>, n: nat, s: Slot): nat
    requires n <= |ws| <= U64_MAX
  {
    if n == 0 then 0
    else Arrived(lay, ws, n - 1, s) + InjectedTo(PlantAt(lay, ws, n - 1).inv, lay.caps.storage, ws[n - 1].requests, s)
  }

  ghost function ArrivedBy(lay: Layout, ws: seq<Weather>, n: nat): Slot -> nat
    requires n <= |ws| <= U64_MAX
  {
    (s: Slot) => Arrived(lay, ws, n, s)
  }

  ghost predicate WeathersOk(ws: seq<Weather>, sources: set<Slot>) {
    |ws| <= U64_MAX && forall i :: 0 <= i < |ws| ==> WeatherOk(ws[i], sources)
  }

  lemma {:induction false} NoneRunning(ts: seq<Transform>, states: map<Id, TState>, g: Gauge)
    requires forall id :: id in states ==> states[id].Idle?
    ensures RunningSum(ts, states, g) == 0
  {
    if ts != [] { NoneRunning(ts[..|ts| - 1], states, g); }
  }

  lemma OpeningOk(lay: Layout, sources: set<Slot>, arrived: Slot -> nat)
    requires LayoutOk(lay, sources) && forall s :: arrived(s) == 0
    ensures PlantOk(lay, sources, arrived, Opening(lay), 0)
  {
    var p := Opening(lay);
    forall g ensures RunningSum(lay.ts, p.states, g) == 0 {
      NoneRunning(lay.ts, p.states, g);
    }
    forall s ensures SlotWithin(lay.ts, lay.caps, sources, p, s) {
    }
  }

  lemma TickKeeps(lay: Layout, sources: set<Slot>, arrived: Slot -> nat, arrived': Slot -> nat, p: Plant, w: Weather, now: u64)
    requires LayoutOk(lay, sources) && WeatherOk(w, sources) && 0 < now && PlantOk(lay, sources, arrived, p, now - 1)
    requires forall s :: arrived'(s) == arrived(s) + InjectedTo(p.inv, lay.caps.storage, w.requests, s)
    ensures PlantOk(lay, sources, arrived', PlantTick(lay, p, w, now), now)
  {
    hide *;
    var p1 := p.(inv := InjectAll(p.inv, lay.caps.storage, w.requests));
    var p2 := p1.(stamps := Age(p1.stamps, lay.budgets, now));
    TickUnfold(lay, p, w, now, p1, p2);
    InjectionKeeps(lay, sources, arrived, arrived', p, w, now - 1);
    AgeKeeps(lay, sources, arrived', p1, now);
    PlantProcessedFirst(lay, sources, |lay.ts|, w.quota, arrived', p2, now);
  }

  lemma TickUnfold(lay: Layout, p: Plant, w: Weather, now: u64, p1: Plant, p2: Plant)
    requires p1 == p.(inv := InjectAll(p.inv, lay.caps.storage, w.requests))
    requires p2 == p1.(stamps := Age(p1.stamps, lay.budgets, now))
    ensures PlantTick(lay, p, w, now) == ProcessFirst(lay.ts, |lay.ts|, lay.caps, w.quota, p2, now)
  {
  }

  /**
   * After every tick of every run: used capacity and pending output are exactly what the running transforms
   * hold; used capacity is within its base, stock plus pending output within storage (or, where pressure
   * injects, within twice that); every unit in stock is accounted for; every freshness tag is what the last
   * delivery and the budget make it; and each map has exactly its declared keys.
   */
  lemma {:induction false} PlantInvariant(lay: Layout, sources: set<Slot>, ws: seq<Weather>, n: nat)
    requires LayoutOk(lay, sources) && WeathersOk(ws, sources) && n <= |ws|
    ensures PlantOk(lay, sources, ArrivedBy(lay, ws, n), PlantAt(lay, ws, n), n)
  {
    hide *;
    RunUnfold(lay, ws, n, sources);
    if n == 0 {
      OpeningOk(lay, sources, ArrivedBy(lay, ws, 0));
    } else {
      PlantInvariant(lay, sources, ws, n - 1);
      TickKeeps(lay, sources, ArrivedBy(lay, ws, n - 1), ArrivedBy(lay, ws, n), PlantAt(lay, ws, n - 1), ws[n - 1], n);
    }
  }

  lemma RunUnfold(lay: Layout, ws: seq<Weather>, n: nat, sources: set<Slot>)
    requires n <= |ws| && WeathersOk(ws, sources)
    ensures |ws| <= U64_MAX
    ensures n == 0 ==> PlantAt(lay, ws, n) == Opening(lay) && forall s :: ArrivedBy(lay, ws, n)(s) == 0
    ensures n > 0 ==> WeatherOk(ws[n - 1], sources) && PlantAt(lay, ws, n) == PlantTick(lay, PlantAt(lay, ws, n - 1), ws[n - 1], n)
    ensures n > 0 ==> forall s :: ArrivedBy(lay, ws, n)(s) == ArrivedBy(lay, ws, n - 1)(s) + InjectedTo(PlantAt(lay, ws, n - 1).inv, lay.caps.storage, ws[n - 1].requests, s)
  {
  }
}
