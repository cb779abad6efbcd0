/** What freshness tags and used capacity mean, on every run: told from initial stock, deliveries and what is running. */
module Observations {
  import opened Base
  import opened Order
  import opened Sl1Scene
  import opened Pressures
  import opened Plants
  import opened Reservations
  import opened PlantRuns
  import opened PlantKeys

  /** Entry e puts something into slot s. */
  predicate DeliversInto(e: Logged, s: Slot) {
    e.move.effect.Deliver? && e.def.runsOn == s.0 && AmountOf(e.def.outputs, s.1) > 0
  }

  /** Slot s was stocked at the start, or something was delivered into it on tick t. */
  ghost predicate SeenOn(lay: Layout, h: seq<Logged>, s: Slot, t: nat) {
    (t == 0 && Get(lay.initial, s) > 0) || exists j :: 0 <= j < |h| && h[j].tick == t && DeliversInto(h[j], s)
  }

  ghost predicate Chronological(h: seq<Logged>, now: u64) {
    && (forall j :: 0 <= j < |h| ==> h[j].tick <= now)
    && (forall i, j :: 0 <= i < j < |h| ==> h[i].tick <= h[j].tick)
  }

  ghost predicate UsedExactly(ts: seq<Transform>, p: Plant) {
    forall b :: Get(p.used, b) == RunningSum(ts, p.states, CapacityOf(b))
  }

  /** Only declared slots were ever delivered to. */
  ghost predicate IntoDeclared(lay: Layout, h: seq<Logged>) {
    forall j, s :: 0 <= j < |h| && DeliversInto(h[j], s) ==> s in lay.caps.storage
  }

  /** What holds after every tick whatever the capacities. */
  ghost predicate Observed(lay: Layout, p: Plant, now: u64) {
    PlantKeyed(lay, p) && TagsExact(lay, p, now) && UsedExactly(lay.ts, p) && Chronological(p.history, now) && IntoDeclared(lay, p.history)
  }

  lemma StepUsedExactly(ts: seq<Transform>, k: nat, p: Plant, m: Move, now: u64)
    requires TransformsOk(ts) && k < |ts| && UsedExactly(ts, p) && Reservations.Turns(p.states, ts[k].id, m)
    ensures UsedExactly(ts, Step(ts[k], p, m, now))
  {
    var p' := Step(ts[k], p, m, now);
    forall b ensures Get(p'.used, b) == RunningSum(ts, p'.states, CapacityOf(b)) {
      StepUsed(ts, k, p, m, now, b);
    }
  }

  lemma StepHistory(lay: Layout, k: nat, p: Plant, m: Move, now: u64)
    requires k < |lay.ts| && PlantKeyed(lay, p) && Chronological(p.history, now) && IntoDeclared(lay, p.history)
    requires m.effect.Deliver? ==> IsRunning(p.states, lay.ts[k].id)
    ensures var h := Step(lay.ts[k], p, m, now).history; Chronological(h, now) && IntoDeclared(lay, h)
  {
    var e := Logged(lay.ts[k], now, m);
    assert Step(lay.ts[k], p, m, now).history == p.history + [e];
    if m.effect.Deliver? {
      assert lay.ts[k] in lay.ts && Declared(lay.caps, lay.ts[k]);
      forall s | DeliversInto(e, s) ensures s in lay.caps.storage {
        assert Weigh(OutputTo(s), lay.ts[k]) > 0;
      }
    }
    hide AmountOf, Weigh;
  }

  lemma StepTags(lay: Layout, k: nat, p: Plant, m: Move, now: u64)
    requires k < |lay.ts| && TransformOk(lay.ts[k]) && PlantKeyed(lay, p) && TagsExact(lay, p, now)
    requires m.effect.Deliver? ==> IsRunning(p.states, lay.ts[k].id)
    ensures TagsExact(lay, Step(lay.ts[k], p, m, now), now)
  {
    assert lay.ts[k] in lay.ts;
    hide TagsExact, TransformOk, Step, AmountOf;
    TagStep(lay, lay.ts[k], p, m, now);
  }

  lemma StepObserved(lay: Layout, sources: set<Slot>, k: nat, quota: map<Bucket, nat>, p: Plant, m: Move, now: u64)
    requires Laid(lay, sources) && k < |lay.ts| && Legal(lay.ts[k], lay.caps, quota, p, m) && Observed(lay, p, now)
    ensures Observed(lay, Step(lay.ts[k], p, m, now), now)
  {
    hide Step, PlantKeyed, TagsExact, UsedExactly, Chronological, IntoDeclared, TryResult, TransformOk;
    StepKeyed(lay, sources, k, quota, p, m, now);
    StepUsedExactly(lay.ts, k, p, m, now);
    StepHistory(lay, k, p, m, now);
    StepTags(lay, k, p, m, now);
  }

  lemma ProcessedObserved(lay: Layout, sources: set<Slot>, k: nat, quota: map<Bucket, nat>, p: Plant, now: u64)
    requires Laid(lay, sources) && k < |lay.ts| && Observed(lay, p, now)
    ensures Observed(lay, ProcessOne(lay.ts[k], lay.caps, quota, p, now), now)
  {
    var def := lay.ts[k];
    var m1 := AdvanceMove(def, lay.caps, quota, p, now);
    var p1 := Step(def, p, m1, now);
    MovesLegal(def, lay.caps, quota, p, now);
    MovesLegal(def, lay.caps, quota, p1, now);
    hide AdvanceMove, TriggerMove, Step, Observed, Laid, Legal;
    StepObserved(lay, sources, k, quota, p, m1, now);
    StepObserved(lay, sources, k, quota, p1, TriggerMove(def, lay.caps, quota, p1, now), now);
  }

  lemma {:induction false} FirstObserved(lay: Layout, sources: set<Slot>, k: nat, quota: map<Bucket, nat>, p: Plant, now: u64)
    requires Laid(lay, sources) && k <= |lay.ts| && Observed(lay, p, now)
    ensures Observed(lay, ProcessFirst(lay.ts, k, lay.caps, quota, p, now), now)
  {
    hide *;
    if k > 0 {
      FirstObserved(lay, sources, k - 1, quota, p, now);
      ProcessUnfold(lay, k - 1, quota, p, now);
      ProcessedObserved(lay, sources, k - 1, quota, ProcessFirst(lay.ts, k - 1, lay.caps, quota, p, now), now);
    } else {
      ProcessNone(lay, quota, p, now);
    }
  }

  lemma PreparedObserved(lay: Layout, sources: set<Slot>, p: Plant, w: Weather, now: u64)
    requires Laid(lay, sources) && WeatherOk(w, sources) && now > 0 && Observed(lay, p, now - 1)
    ensures var p1 := p.(inv := InjectAll(p.inv, lay.caps.storage, w.requests)); Observed(lay, p1.(stamps := Age(p1.stamps, lay.budgets, now)), now)
  {
    var p1 := p.(inv := InjectAll(p.inv, lay.caps.storage, w.requests));
    PreparedKeyed(lay, sources, p, w, now);
    hide InjectAll, Age, PlantKeyed, IntoDeclared, RunningSum, Laid, WeatherOk, TagOf;
    AgeTags(lay, p1, now, p1.(stamps := Age(p1.stamps, lay.budgets, now)));
  }

  lemma TickObserved(lay: Layout, sources: set<Slot>, p: Plant, w: Weather, now: u64)
    requires Laid(lay, sources) && WeatherOk(w, sources) && now > 0 && Observed(lay, p, now - 1)
    ensures Observed(lay, PlantTick(lay, p, w, now), now)
  {
    hide *;
    var p1 := p.(inv := InjectAll(p.inv, lay.caps.storage, w.requests));
    var p2 := p1.(stamps := Age(p1.stamps, lay.budgets, now));
    TickUnfold(lay, p, w, now, p1, p2);
    PreparedObserved(lay, sources, p, w, now);
    FirstObserved(lay, sources, |lay.ts|, w.quota, p2, now);
  }

  lemma OpeningObserved(lay: Layout, sources: set<Slot>)
    requires Laid(lay, sources)
    ensures Observed(lay, Opening(lay), 0)
  {
    OpeningKeyed(lay, sources);
    var p := Opening(lay);
    forall b ensures RunningSum(lay.ts, p.states, CapacityOf(b)) == 0 {
      NoneRunning(lay.ts, p.states, CapacityOf(b));
    }
    hide PlantKeyed, Laid;
  }

  lemma {:induction false} ObservedOnRun(lay: Layout, sources: set<Slot>, ws: seq<Weather>, n: nat)
    requires Laid(lay, sources) && WeathersOk(ws, sources) && n <= |ws|
    ensures |ws| <= U64_MAX && Observed(lay, PlantAt(lay, ws, n), n)
  {
    hide *;
    RunUnfold(lay, ws, n, sources);
    if n == 0 {
      OpeningObserved(lay, sources);
    } else {
      ObservedOnRun(lay, sources, ws, n - 1);
      TickObserved(lay, sources, PlantAt(lay, ws, n - 1), ws[n - 1], n);
    }
  }

  // ---- What a tag says ----

  lemma {:induction false} LastIsLatest(h: seq<Logged>, s: Slot, now: u64)
    requires Chronological(h, now)
    ensures LastDelivery(h, s).None? ==> forall j :: 0 <= j < |h| ==> !DeliversInto(h[j], s)
    ensures LastDelivery(h, s).Some? ==>
      (var t := LastDelivery(h, s).value;
       (exists j :: 0 <= j < |h| && h[j].tick == t && DeliversInto(h[j], s)) && forall j :: 0 <= j < |h| && DeliversInto(h[j], s) ==> h[j].tick <= t)
  {
    hide AmountOf;
    if h != [] {
      var front, last := h[..|h| - 1], h[|h| - 1];
      LastIsLatest(front, s, now);
      assert forall j :: 0 <= j < |front| ==> front[j] == h[j];
      if DeliversInto(last, s) {
        assert h[|h| - 1].tick == last.tick;
      } else if LastDelivery(front, s).Some? {
        var j :| 0 <= j < |front| && front[j].tick == LastDelivery(front, s).value && DeliversInto(front[j], s);
        assert h[j] == front[j];
      }
    }
  }

  /** The latest tick on which something was put into a slot, if any. */
  ghost predicate LatestSeen(lay: Layout, h: seq<Logged>, s: Slot, t: nat) {
    SeenOn(lay, h, s, t) && forall u: nat :: SeenOn(lay, h, s, u) ==> u <= t
  }

  lemma TagLatest(lay: Layout, h: seq<Logged>, s: Slot, now: u64)
    requires Chronological(h, now)
    ensures var f := TagOf(lay, h, s, now);
      && (f == NoData || f.Ok? || f.Stale?)
      && (f == NoData <==> forall t: nat :: !SeenOn(lay, h, s, t))
      && (f.Ok? || f.Stale? ==> f.lastSet <= now && LatestSeen(lay, h, s, f.lastSet))
      && (f.Ok? || f.Stale? ==> (f.Stale? <==> Budget(lay.budgets, s.1).Some? && now - f.lastSet > Budget(lay.budgets, s.1).value))
  {
    LastIsLatest(h, s, now);
    hide DeliversInto, LastDelivery, Budget;
    var last := LastDelivery(h, s);
    if last.Some? {
      assert SeenOn(lay, h, s, last.value);
    } else if Get(lay.initial, s) > 0 {
      assert SeenOn(lay, h, s, 0);
    }
  }

  /** A slot that is not declared was never seen; a declared one has the tag its last delivery, or initial stock, gives it. */
  lemma StampMeans(lay: Layout, p: Plant, now: u64, s: Slot)
    requires lay.initial.Keys == lay.caps.storage.Keys && Observed(lay, p, now)
    ensures s in p.stamps <==> s in lay.caps.storage
    ensures s in p.stamps ==> p.stamps[s] == TagOf(lay, p.history, s, now)
    ensures s !in p.stamps ==> forall t: nat :: !SeenOn(lay, p.history, s, t)
  {
    hide DeliversInto, TransformsOk, UsedExactly, TagOf;
    if s !in p.stamps {
      forall t ensures !SeenOn(lay, p.history, s, t) { assert s !in lay.initial; }
    }
  }

  /**
   * After every tick of every run a declared slot shows no data exactly if it was neither stocked at the start nor
   * delivered to; otherwise its tag names the latest of those ticks, and is stale exactly if that lies more than the
   * thing's freshness budget back.
   */
  lemma TagMeans(lay: Layout, sources: set<Slot>, ws: seq<Weather>, n: nat, s: Slot)
    requires Laid(lay, sources) && WeathersOk(ws, sources) && n <= |ws| && s in lay.caps.storage
    ensures |ws| <= U64_MAX && s in PlantAt(lay, ws, n).stamps
    ensures var p := PlantAt(lay, ws, n); var f := p.stamps[s];
      && (f == NoData || f.Ok? || f.Stale?)
      && (f == NoData <==> forall t: nat :: !SeenOn(lay, p.history, s, t))
      && (f.Ok? || f.Stale? ==> f.lastSet <= n && LatestSeen(lay, p.history, s, f.lastSet))
      && (f.Ok? || f.Stale? ==> (f.Stale? <==> Budget(lay.budgets, s.1).Some? && n - f.lastSet > Budget(lay.budgets, s.1).value))
  {
    hide *;
    ObservedOnRun(lay, sources, ws, n);
    LaidKeys(lay, sources);
    StampMeans(lay, PlantAt(lay, ws, n), n, s);
    InOrder(lay, PlantAt(lay, ws, n), n);
    TagLatest(lay, PlantAt(lay, ws, n).history, s, n);
  }

  lemma LaidKeys(lay: Layout, sources: set<Slot>)
    requires Laid(lay, sources)
    ensures lay.initial.Keys == lay.caps.storage.Keys
  {
  }

  lemma InOrder(lay: Layout, p: Plant, now: u64)
    requires Observed(lay, p, now)
    ensures Chronological(p.history, now) && UsedExactly(lay.ts, p)
  {
  }

  /** Something was put into the slot within the last `limit` ticks. */
  ghost predicate SeenWithin(lay: Layout, h: seq<Logged>, s: Slot, limit: nat, now: nat) {
    exists t: nat :: SeenOn(lay, h, s, t) && t + limit >= now
  }
}
