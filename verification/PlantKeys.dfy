/** The maps of the plant keep exactly the declared slots, buckets and transforms, on every run and whatever the capacities. */
module PlantKeys {
  import opened Base
  import opened Order
  import opened Sl1Scene
  import opened Pressures
  import opened Plants
  import opened Reservations
  import opened PlantRuns

  /** All the transform delivers goes into declared slots. */
  ghost predicate Declared(caps: Caps, t: Transform) {
    forall s :: Weigh(OutputTo(s), t) > 0 ==> s in caps.storage
  }

  /** Exactly the declared keys, and nothing under way to any other. */
  ghost predicate PlantKeyed(lay: Layout, p: Plant) {
    KeysExact(lay, p) && forall t :: t in lay.ts && IsRunning(p.states, t.id) ==> Declared(lay.caps, t)
  }

  lemma StartedDeclared(def: Transform, caps: Caps, quota: map<Bucket, nat>, p: Plant)
    requires TransformOk(def) && TryResult(def, caps, quota, p) == Started
    ensures Declared(caps, def)
  {
    StartedFits(def, caps, quota, p);
    hide TryResult, TransformOk;
  }

  lemma StampKeys(f: map<Slot, Freshness>, def: Transform, now: u64)
    requires TransformOk(def) && forall s :: Weigh(OutputTo(s), def) > 0 ==> s in f
    ensures Stamp(f, def.runsOn, def.outputs, now).Keys == f.Keys
  {
    forall s ensures s in Stamp(f, def.runsOn, def.outputs, now) <==> s in f {
      StampedAt(f, def.runsOn, def.outputs, now, s);
    }
  }

  lemma StepKeyed(lay: Layout, sources: set<Slot>, k: nat, quota: map<Bucket, nat>, p: Plant, m: Move, now: u64)
    requires Laid(lay, sources) && k < |lay.ts| && Legal(lay.ts[k], lay.caps, quota, p, m) && PlantKeyed(lay, p)
    ensures PlantKeyed(lay, Step(lay.ts[k], p, m, now))
  {
    var def := lay.ts[k];
    var p' := Step(def, p, m, now);
    assert def in lay.ts;
    if m.effect.Take? {
      StartedDeclared(def, lay.caps, quota, p);
      StartedFits(def, lay.caps, quota, p);
    }
    if m.effect.Deliver? { StampKeys(p.stamps, def, now); }
    KeyStep(lay, sources, k, p, m, now);
    hide TryResult, AmountOf, AdjustAll, Stamp;
    forall t | t in lay.ts && IsRunning(p'.states, t.id) ensures Declared(lay.caps, t) {
      if t.id == def.id { SameTransform(lay.ts, k, t); }
    }
  }

  lemma SameTransform(ts: seq<Transform>, k: nat, t: Transform)
    requires TransformsOk(ts) && k < |ts| && t in ts && t.id == ts[k].id
    ensures t == ts[k]
  {
    var j :| 0 <= j < |ts| && ts[j] == t;
    SortedDistinct(ts, TransformKey, j, k);
  }

  lemma ProcessedKeyed(lay: Layout, sources: set<Slot>, k: nat, quota: map<Bucket, nat>, p: Plant, now: u64)
    requires Laid(lay, sources) && k < |lay.ts| && PlantKeyed(lay, p)
    ensures PlantKeyed(lay, ProcessOne(lay.ts[k], lay.caps, quota, p, now))
  {
    var def := lay.ts[k];
    var m1 := AdvanceMove(def, lay.caps, quota, p, now);
    var p1 := Step(def, p, m1, now);
    MovesLegal(def, lay.caps, quota, p, now);
    MovesLegal(def, lay.caps, quota, p1, now);
    hide AdvanceMove, TriggerMove, Step, PlantKeyed, Laid, Legal;
    StepKeyed(lay, sources, k, quota, p, m1, now);
    StepKeyed(lay, sources, k, quota, p1, TriggerMove(def, lay.caps, quota, p1, now), now);
  }

  lemma {:induction false} FirstKeyed(lay: Layout, sources: set<Slot>, k: nat, quota: map<Bucket, nat>, p: Plant, now: u64)
    requires Laid(lay, sources) && k <= |lay.ts| && PlantKeyed(lay, p)
    ensures PlantKeyed(lay, ProcessFirst(lay.ts, k, lay.caps, quota, p, now))
  {
    hide *;
    if k > 0 {
      FirstKeyed(lay, sources, k - 1, quota, p, now);
      ProcessUnfold(lay, k - 1, quota, p, now);
      ProcessedKeyed(lay, sources, k - 1, quota, ProcessFirst(lay.ts, k - 1, lay.caps, quota, p, now), now);
    } else {
      ProcessNone(lay, quota, p, now);
    }
  }

  lemma PreparedKeyed(lay: Layout, sources: set<Slot>, p: Plant, w: Weather, now: u64)
    requires Laid(lay, sources) && WeatherOk(w, sources) && PlantKeyed(lay, p)
    ensures var p1 := p.(inv := InjectAll(p.inv, lay.caps.storage, w.requests));
      PlantKeyed(lay, p1.(stamps := Age(p1.stamps, lay.budgets, now)))
  {
    InjectionExact(p.inv, lay.caps.storage, w.requests, ("", ""));
    hide InjectAll, Declared, TransformsOk;
  }

  lemma TickKeyed(lay: Layout, sources: set<Slot>, p: Plant, w: Weather, now: u64)
    requires Laid(lay, sources) && WeatherOk(w, sources) && PlantKeyed(lay, p)
    ensures PlantKeyed(lay, PlantTick(lay, p, w, now))
  {
    hide *;
    var p1 := p.(inv := InjectAll(p.inv, lay.caps.storage, w.requests));
    var p2 := p1.(stamps := Age(p1.stamps, lay.budgets, now));
    TickUnfold(lay, p, w, now, p1, p2);
    PreparedKeyed(lay, sources, p, w, now);
    FirstKeyed(lay, sources, |lay.ts|, w.quota, p2, now);
  }

  lemma OpeningKeyed(lay: Layout, sources: set<Slot>)
    requires Laid(lay, sources)
    ensures PlantKeyed(lay, Opening(lay))
  {
  }

  /** After every tick of every run, stock, tags, used capacity and states have exactly the declared keys. */
  lemma {:induction false} KeysKept(lay: Layout, sources: set<Slot>, ws: seq<Weather>, n: nat)
    requires Laid(lay, sources) && WeathersOk(ws, sources) && n <= |ws|
    ensures |ws| <= U64_MAX && PlantKeyed(lay, PlantAt(lay, ws, n))
  {
    hide *;
    RunUnfold(lay, ws, n, sources);
    if n == 0 {
      OpeningKeyed(lay, sources);
    } else {
      KeysKept(lay, sources, ws, n - 1);
      TickKeyed(lay, sources, PlantAt(lay, ws, n - 1), ws[n - 1], n);
    }
  }
}
