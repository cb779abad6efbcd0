/** From a declaration the loader accepts to any tick of its run: what is declared is what happens. */
module DeclaredRuns {
  import opened Base
  import opened Order
  import opened Sl1Scene
  import opened Loader
  import opened Declarations
  import opened Acceptance
  import opened LoaderTheorems
  import opened Demands
  import Plants
  import PlantRuns
  import TransformLife
  import Turns
  import Pressures
  import Goals
  import GoalRuns
  import GoalMeanings
  import Boards
  import Agents
  import AgentRuns
  import Milestones
  import DemandEngine
  import Backlogs
  import opened Sl1State
  import opened TickEngine
  import opened Sl1Runs
  import opened SceneTheorems
  import opened SceneMeanings

  /** The scene an acceptable declaration is loaded as. */
  function SceneOf(r: RawScene): Scene
    requires Validate(r).Some?
  {
    Validate(r).value
  }

  lemma SceneIs(r: RawScene)
    requires Validate(r).Some?
    ensures SceneOf(r) == Validate(r).value
  {
    hide Validate;
  }

  /** Every accepted scene can be run. */
  lemma AcceptedRunnable(r: RawScene)
    requires Validate(r).Some?
    ensures Runnable(SceneOf(r)) && SceneOk(SceneOf(r)) && Carries(r, SceneOf(r))
  {
    hide *;
    SceneIs(r);
    AcceptedScenesRun(r);
    SourcesAre(Validate(r).value);
    RunnableIs(Validate(r).value);
    AcceptedExactly(r);
  }

  // ---- The layout ----

  /** A declared place has a storage slot for this thing, of this capacity and initial stock. */
  ghost predicate DeclaredSlot(r: RawScene, slot: Slot, capacity: u64, initial: u64) {
    exists p :: p in r.places && p.id == slot.0 && slot.1 in p.storage && p.storage[slot.1] == StorageSlot(capacity, initial)
  }

  ghost predicate DeclaredBucket(r: RawScene, b: Bucket, capacity: u64) {
    exists p :: p in r.places && p.id == b.0 && b.1 in p.capacity && p.capacity[b.1] == capacity
  }

  predicate PlaceHas(p: Place, slot: Slot, capacity: u64, initial: u64) {
    p.id == slot.0 && slot.1 in p.storage && p.storage[slot.1] == StorageSlot(capacity, initial)
  }

  predicate PlaceOffers(p: Place, b: Bucket, capacity: u64) { p.id == b.0 && b.1 in p.capacity && p.capacity[b.1] == capacity }

  predicate DistinctPlaces(places: seq<Place>) { forall i, j :: 0 <= i < |places| && 0 <= j < |places| && places[i].id == places[j].id ==> i == j }

  /** One more place adds its own slots, and its values are the ones they get. */
  lemma SlotMore(storage: map<Slot, u64>, initial: map<Slot, u64>, p: Place, slot: Slot)
    requires storage.Keys == initial.Keys
    ensures var c, i := storage + CapacitiesOf(p), initial + InitialsOf(p);
      && c.Keys == i.Keys
      && (if p.id == slot.0 && slot.1 in p.storage then slot in c && PlaceHas(p, slot, c[slot], i[slot])
          else (slot in c <==> slot in storage) && (slot in c ==> c[slot] == storage[slot] && i[slot] == initial[slot]))
  {
    assert CapacitiesOf(p).Keys == InitialsOf(p).Keys;
  }

  lemma {:induction false} SlotLaid(places: seq<Place>, k: nat, slot: Slot)
    requires k <= |places| && DistinctPlaces(places)
    ensures InitialFirst(places, k).Keys == StorageFirst(places, k).Keys
    ensures slot in StorageFirst(places, k) ==>
      exists i :: 0 <= i < k && PlaceHas(places[i], slot, StorageFirst(places, k)[slot], InitialFirst(places, k)[slot])
    ensures forall i :: 0 <= i < k && places[i].id == slot.0 && slot.1 in places[i].storage ==>
      slot in StorageFirst(places, k) && PlaceHas(places[i], slot, StorageFirst(places, k)[slot], InitialFirst(places, k)[slot])
  {
    hide StorageFirst, InitialFirst, CapacitiesOf, InitialsOf, PlaceHas;
    FirstUnfold(places, k);
    if k > 0 {
      SlotLaid(places, k - 1, slot);
      SlotMore(StorageFirst(places, k - 1), InitialFirst(places, k - 1), places[k - 1], slot);
      Elsewhere(places, k, slot.0);
    }
  }

  lemma FirstUnfold(places: seq<Place>, k: nat)
    requires k <= |places|
    ensures k == 0 ==> StorageFirst(places, k) == map[] && InitialFirst(places, k) == map[]
    ensures k > 0 ==> StorageFirst(places, k) == StorageFirst(places, k - 1) + CapacitiesOf(places[k - 1])
    ensures k > 0 ==> InitialFirst(places, k) == InitialFirst(places, k - 1) + InitialsOf(places[k - 1])
  {
    hide CapacitiesOf, InitialsOf;
  }

  /** No place before has the id of this one. */
  lemma Elsewhere(places: seq<Place>, k: nat, id: Id)
    requires 0 < k <= |places| && DistinctPlaces(places)
    ensures places[k - 1].id == id ==> forall i :: 0 <= i < k - 1 ==> places[i].id != id
  {
  }

  lemma {:induction false} BucketLaid(places: seq<Place>, k: nat, b: Bucket)
    requires k <= |places| && DistinctPlaces(places)
    ensures b in BaseFirst(places, k) ==> exists i :: 0 <= i < k && PlaceOffers(places[i], b, BaseFirst(places, k)[b])
    ensures forall i :: 0 <= i < k && places[i].id == b.0 && b.1 in places[i].capacity ==>
      b in BaseFirst(places, k) && PlaceOffers(places[i], b, BaseFirst(places, k)[b])
  {
    if k > 0 {
      BucketLaid(places, k - 1, b);
      var p := places[k - 1];
      if b in BucketsOf(p) { assert PlaceOffers(p, b, BaseFirst(places, k)[b]); }
    }
  }

  lemma {:induction false} BudgetLaid(things: seq<Thing>, k: nat, i: nat)
    requires i < k <= |things| && SortedBy(things, ThingKey)
    ensures things[i].id in BudgetFirst(things, k) && BudgetFirst(things, k)[things[i].id] == things[i].budget
  {
    if i < k - 1 {
      BudgetLaid(things, k - 1, i);
      if things[i].id == things[k - 1].id { SortedDistinct(things, ThingKey, i, k - 1); }
    }
  }

  lemma PlacesDistinct(places: seq<Place>)
    requires SortedBy(places, PlaceKey)
    ensures DistinctPlaces(places)
  {
    hide SortedBy;
    forall i, j | 0 <= i < |places| && 0 <= j < |places| && places[i].id == places[j].id ensures i == j { SortedDistinct(places, PlaceKey, i, j); }
  }

  lemma ScenePaired(r: RawScene, s: Scene)
    requires Carries(r, s) && SceneOk(s)
    ensures Paired(r.places, s.places, CarriesPlace) && Paired(r.things, s.things, CarriesThing) && Paired(r.demand, s.demand, CarriesDemand)
    ensures Paired(r.transforms, s.transforms, CarriesTransform) && Paired(r.pressure, s.pressure, CarriesPressure)
    ensures Paired(r.failures, s.failures, CarriesFailure)
    ensures SortedBy(s.places, PlaceKey) && SortedBy(s.things, ThingKey) && SortedBy(s.demand, DemandKey)
  {
    hide Paired, SortedBy, TransformsOk, Pressures.PressuresOk, Goals.RulesOk, Boards.BoardsOk, Agents.AgentsOk, ScheduleOk;
  }

  lemma LayoutUnfold(s: Scene)
    ensures var lay := LayoutOf(s);
      && lay.caps.storage == StorageFirst(s.places, |s.places|) && lay.initial == InitialFirst(s.places, |s.places|)
      && lay.caps.base == BaseFirst(s.places, |s.places|) && lay.budgets == BudgetFirst(s.things, |s.things|)
  {
    hide StorageFirst, InitialFirst, BaseFirst, BudgetFirst;
  }

  /** The plant of an accepted scene has exactly the declared slots, with their capacities and initial stock. */
  lemma DeclaredStorage(r: RawScene, slot: Slot)
    requires Validate(r).Some?
    ensures var lay := LayoutOf(SceneOf(r));
      && (slot in lay.caps.storage <==> slot in lay.initial) && (slot in lay.caps.storage <==> StoredAt(r, slot.0, slot.1))
      && (slot in lay.caps.storage ==> forall c, i :: DeclaredSlot(r, slot, c, i) <==> c == lay.caps.storage[slot] && i == lay.initial[slot])
  {
    hide *;
    var s := SceneOf(r);
    AcceptedRunnable(r);
    ScenePaired(r, s);
    LayoutUnfold(s);
    PlacesDistinct(s.places);
    SlotLaid(s.places, |s.places|, slot);
    SlotDeclared(r, s.places, slot, StorageFirst(s.places, |s.places|), InitialFirst(s.places, |s.places|));
  }

  lemma SlotDeclared(r: RawScene, places: seq<Place>, slot: Slot, storage: map<Slot, u64>, initial: map<Slot, u64>)
    requires Paired(r.places, places, CarriesPlace) && storage.Keys == initial.Keys
    requires slot in storage ==> exists i :: 0 <= i < |places| && PlaceHas(places[i], slot, storage[slot], initial[slot])
    requires forall i :: 0 <= i < |places| && places[i].id == slot.0 && slot.1 in places[i].storage ==>
      slot in storage && PlaceHas(places[i], slot, storage[slot], initial[slot])
    ensures slot in storage <==> StoredAt(r, slot.0, slot.1)
    ensures slot in storage ==> forall c, i :: DeclaredSlot(r, slot, c, i) <==> c == storage[slot] && i == initial[slot]
  {
    hide Paired, Same;
    if slot in storage {
      var i :| 0 <= i < |places| && PlaceHas(places[i], slot, storage[slot], initial[slot]);
      var p := RawOf(r.places, places, CarriesPlace, places[i]);
      assert DeclaredSlot(r, slot, storage[slot], initial[slot]);
    }
    forall p | p in r.places && p.id == slot.0 && slot.1 in p.storage
      ensures slot in storage && p.storage[slot.1] == StorageSlot(storage[slot], initial[slot])
    {
      var x := ItemOf(r.places, places, CarriesPlace, p);
      var i :| 0 <= i < |places| && places[i] == x;
    }
  }

  /** And exactly the declared buckets, with their capacities. */
  lemma DeclaredCapacity(r: RawScene, b: Bucket)
    requires Validate(r).Some?
    ensures var base := LayoutOf(SceneOf(r)).caps.base;
      && (b in base <==> BucketAt(r, b.0, b.1))
      && (b in base ==> forall c :: DeclaredBucket(r, b, c) <==> c == base[b])
  {
    hide *;
    var s := SceneOf(r);
    AcceptedRunnable(r);
    ScenePaired(r, s);
    LayoutUnfold(s);
    PlacesDistinct(s.places);
    BucketLaid(s.places, |s.places|, b);
    BucketDeclared(r, s.places, b, BaseFirst(s.places, |s.places|));
  }

  lemma BucketDeclared(r: RawScene, places: seq<Place>, b: Bucket, base: map<Bucket, u64>)
    requires Paired(r.places, places, CarriesPlace)
    requires b in base ==> exists i :: 0 <= i < |places| && PlaceOffers(places[i], b, base[b])
    requires forall i :: 0 <= i < |places| && places[i].id == b.0 && b.1 in places[i].capacity ==> b in base && PlaceOffers(places[i], b, base[b])
    ensures b in base <==> BucketAt(r, b.0, b.1)
    ensures b in base ==> forall c :: DeclaredBucket(r, b, c) <==> c == base[b]
  {
    hide Paired, Same;
    if b in base {
      var i :| 0 <= i < |places| && PlaceOffers(places[i], b, base[b]);
      var p := RawOf(r.places, places, CarriesPlace, places[i]);
      assert DeclaredBucket(r, b, base[b]);
    }
    forall p | p in r.places && p.id == b.0 && b.1 in p.capacity ensures b in base && p.capacity[b.1] == base[b] {
      var x := ItemOf(r.places, places, CarriesPlace, p);
      var i :| 0 <= i < |places| && places[i] == x;
    }
  }

  /** The freshness budget of a declared thing is the one it declares. */
  lemma DeclaredBudget(r: RawScene, x: RawThing)
    requires Validate(r).Some? && x in r.things
    ensures Plants.Budget(LayoutOf(SceneOf(r)).budgets, x.id) == x.budget
  {
    hide *;
    var s := SceneOf(r);
    AcceptedRunnable(r);
    ScenePaired(r, s);
    LayoutUnfold(s);
    var t := ItemOf(r.things, s.things, CarriesThing, x);
    var i :| 0 <= i < |s.things| && s.things[i] == t;
    BudgetLaid(s.things, |s.things|, i);
    BudgetIs(x, t, BudgetFirst(s.things, |s.things|));
  }

  lemma BudgetIs(x: RawThing, t: Thing, budgets: map<Id, Option<u64>>)
    requires CarriesThing(x, t) && t.id in budgets && budgets[t.id] == t.budget
    ensures Plants.Budget(budgets, x.id) == x.budget
  {
    hide Same;
  }

  // ---- Demand ----

  /** A fixed schedule names every e-th tick from its start on, a scripted one its list. */
  predicate DeclaredDue(s: RawSchedule, n: nat) {
    match s.kind
    case FixedKind => s.every.Some? && s.start.Some? && s.every.value > 0 && n >= s.start.value && (n - s.start.value) % s.every.value == 0
    case ScriptedKind => s.ticks.Some? && n in s.ticks.value
    case OtherSchedule => false
  }

  predicate DeclaredStock(p: Plants.Plant, x: RawDemand) { forall thing :: thing in x.needs ==> Get(p.inv, (x.target, thing)) > 0 }

  lemma DemandMeans(x: RawDemand, d: Demand, p: Plants.Plant, n: u64)
    requires CarriesDemand(x, d)
    ensures d.id == x.id && d.deadline == x.deadline
    ensures Due(d.schedule, n) <==> DeclaredDue(x.schedule, n)
    ensures InStock(p, d) <==> DeclaredStock(p, x)
  {
    SameMember(d.needs, x.needs);
    hide Same;
  }

  lemma DemandLoaded(r: RawScene, x: RawDemand) returns (i: nat)
    requires Validate(r).Some? && x in r.demand
    ensures i < |SceneOf(r).demand| && CarriesDemand(x, SceneOf(r).demand[i]) && SceneOf(r).demand[i].id == x.id
  {
    hide *;
    AcceptedRunnable(r);
    ScenePaired(r, SceneOf(r));
    var d := ItemOf(r.demand, SceneOf(r).demand, CarriesDemand, x);
    i :| 0 <= i < |SceneOf(r).demand| && SceneOf(r).demand[i] == d;
    DemandIdIs(x, d);
  }

  lemma DemandIdIs(x: RawDemand, d: Demand)
    requires CarriesDemand(x, d)
    ensures d.id == x.id
  {
  }

  /** The scene pauses this demand on tick n: a throttle applied before, by any agent, reaches it. */
  ghost predicate Throttled(s: Scene, ask: Agents.Backend, id: Id, n: nat)
    requires Agents.AgentsOk(s.agents) && 0 < n < U64_MAX
  {
    AgentRuns.HeldBack(s.agents, DemandEngine.DemandIds(s.demand), ask, n - 1, id, n)
  }

  /**
   * On tick n of the run of an accepted scene, a demand declared fixed (e, s) spawns if n >= s and e divides n - s,
   * a scripted one if its list has n, and neither if throttled; then one instance and one for each unit of growth
   * in force, as far as the backlog has room.
   */
  lemma DeclaredSpawns(r: RawScene, ask: Agents.Backend, n: nat, x: RawDemand)
    requires Validate(r).Some? && x in r.demand && 0 < n < U64_MAX && MAX_OUTSTANDING * n <= U64_MAX
    ensures Agents.AgentsOk(SceneOf(r).agents)
    ensures x.id in WorldAt(SceneOf(r), ask, n - 1).demand && x.id in WorldAt(SceneOf(r), ask, n).demand
    ensures var s := SceneOf(r); var before := WorldAt(s, ask, n - 1).demand[x.id];
      WorldAt(s, ask, n).demand[x.id].next == before.next +
        if DeclaredDue(x.schedule, n) && !Throttled(s, ask, x.id, n)
        then Min(1 + Pressures.GrowthSum(s.pressure, n, x.id), MAX_OUTSTANDING - |before.pending|) else 0
  {
    hide *;
    var s := SceneOf(r);
    AcceptedRunnable(r);
    var i := DemandLoaded(r, x);
    SceneSpawns(s, ask, n, i);
    DemandMeans(x, s.demand[i], WorldAt(s, ask, n).plant, n);
    ThrottledIs(s, ask, x.id, n);
  }

  lemma ThrottledIs(s: Scene, ask: Agents.Backend, id: Id, n: nat)
    requires Agents.AgentsOk(s.agents) && 0 < n < U64_MAX
    ensures Throttled(s, ask, id, n) <==> AgentRuns.HeldBack(s.agents, DemandEngine.DemandIds(s.demand), ask, n - 1, id, n)
  {
    hide AgentRuns.HeldBack;
  }

  /** What was waiting or is born on tick n, less what is past its declared deadline. */
  function Queue(x: RawDemand, d: DemandState, born: nat, n: u64): seq<Instance>
    requires d.next + born <= U64_MAX
  {
    Backlogs.InTime(d.pending + Backlogs.Born(d.next, born, x.deadline, n), n)
  }

  /** From before to after tick n, the oldest instance left is fulfilled if what the demand needs is in stock. */
  ghost predicate Serves(x: RawDemand, before: DemandState, stocked: bool, n: u64, after: DemandState) {
    && before.next <= after.next
    && var left := Queue(x, before, after.next - before.next, n);
       var served := stocked && left != [];
       after.fulfilled == before.fulfilled + (if served then 1 else 0) && after.pending == if served then left[1..] else left
  }

  /**
   * On tick n the demand counts one more fulfilled, and its oldest instance leaves, exactly if after that tick's
   * transforms all its declared needs are in stock at its declared place and an instance is left in time.
   */
  lemma DeclaredFulfils(r: RawScene, ask: Agents.Backend, n: nat, x: RawDemand)
    requires Validate(r).Some? && x in r.demand && 0 < n < U64_MAX && MAX_OUTSTANDING * n <= U64_MAX
    ensures x.id in WorldAt(SceneOf(r), ask, n - 1).demand && x.id in WorldAt(SceneOf(r), ask, n).demand
    ensures var s := SceneOf(r);
      Serves(x, WorldAt(s, ask, n - 1).demand[x.id], DeclaredStock(WorldAt(s, ask, n).plant, x), n, WorldAt(s, ask, n).demand[x.id])
  {
    hide *;
    var s := SceneOf(r);
    AcceptedRunnable(r);
    var i := DemandLoaded(r, x);
    SceneFulfils(s, ask, n, i);
    var d := s.demand[i];
    var before, after := WorldAt(s, ask, n - 1).demand[x.id], WorldAt(s, ask, n).demand[x.id];
    var want := 1 + Pressures.GrowthSum(s.pressure, n, d.id);
    DemandMeans(x, d, WorldAt(s, ask, n).plant, n);
    var ws :| before.next + Backlogs.Births(before, DueOn(s, ask, d, n), want) <= U64_MAX
      && Backlogs.TickIs(d, before, DueOn(s, ask, d, n), want, InStock(WorldAt(s, ask, n).plant, d), n, after, ws);
    TickServes(x, d, before, DueOn(s, ask, d, n), want, InStock(WorldAt(s, ask, n).plant, d), n, after, ws);
  }

  lemma TickServes(x: RawDemand, d: Demand, before: DemandState, due: bool, want: nat, stocked: bool, n: u64, after: DemandState, ws: seq<DemandWarning>)
    requires d.deadline == x.deadline && before.next + Backlogs.Births(before, due, want) <= U64_MAX
    requires Backlogs.TickIs(d, before, due, want, stocked, n, after, ws)
    ensures Serves(x, before, stocked, n, after)
  {
    hide Backlogs.InTime, Backlogs.Born, Backlogs.Births, Backlogs.Misses;
    assert Backlogs.Births(before, due, want) >= 0;
  }

  // ---- Pressure, transforms, failure conditions ----

  /** A declared pressure is active after tick n exactly from its declared tick until its declared duration has passed. */
  lemma DeclaredWindow(r: RawScene, ask: Agents.Backend, n: nat, x: RawPressure)
    requires Validate(r).Some? && x in r.pressure && 0 < n <= U64_MAX
    ensures x.id in WorldAt(SceneOf(r), ask, n).pressure.active <==> x.atTick <= n < x.atTick + x.duration
  {
    hide *;
    AcceptedRunnable(r);
    ScenePaired(r, SceneOf(r));
    var p := ItemOf(r.pressure, SceneOf(r).pressure, CarriesPressure, x);
    SceneActive(SceneOf(r), ask, n, p);
    PressureIs(x, p);
  }

  lemma PressureIs(x: RawPressure, p: Pressure)
    requires CarriesPressure(x, p)
    ensures p.id == x.id && p.atTick == x.atTick && p.duration == x.duration
  {
  }

  /** How many ticks past its deadline a declared transform still tries. */
  function DeclaredPatience(x: RawTransform): u32 { if x.policy == Some(Drop) then 1 else x.maxAttempts }

  /** A declared transform that fails on tick t was opened `deadline + max_attempts` ticks before, or `deadline + 1` if it drops. */
  lemma DeclaredFailures(r: RawScene, ask: Agents.Backend, n: nat, x: RawTransform, e: Plants.Logged)
    requires Validate(r).Some? && x in r.transforms && n < U64_MAX
    requires e in WorldAt(SceneOf(r), ask, n).plant.history && e.def.id == x.id && TransformLife.Warns(e.move, Plants.FailedWarning)
    ensures var start := e.tick - x.deadline - DeclaredPatience(x);
      && 1 <= start <= e.tick <= n && Turns.Names(e.move, Plants.FailedWarning, DeclaredPatience(x))
      && exists def :: CarriesTransform(x, def) && Turns.OpenSince(def, Plants.StateOf(WorldAt(SceneOf(r), ask, start).plant, x.id), start)
  {
    hide *;
    var s := SceneOf(r);
    AcceptedRunnable(r);
    ScenePaired(r, s);
    var t := ItemOf(r.transforms, s.transforms, CarriesTransform, x);
    var i :| 0 <= i < |s.transforms| && s.transforms[i] == t;
    TransformIs(x, t);
    SceneFailures(s, ask, n, i, e);
  }

  lemma TransformIs(x: RawTransform, t: Transform)
    requires CarriesTransform(x, t)
    ensures t.id == x.id && t.deadline == x.deadline && Turns.Patience(t) == DeclaredPatience(x)
  {
    hide Same;
  }

  /**
   * A failure condition declared on a stale target is breached on tick n exactly if nothing was stocked in or
   * delivered to the declared slot within the declared threshold.
   */
  lemma DeclaredStale(r: RawScene, ask: Agents.Backend, n: nat, x: RawFailure)
    requires Validate(r).Some? && x in r.failures && x.kind.StaleKind? && 0 < n <= U64_MAX
    ensures x.place.Some? && x.thing.Some? && x.threshold.Some?
    ensures exists f :: (f in SceneOf(r).failures && CarriesFailure(x, f)
      && (GoalRuns.BreachedOn(RulesOf(SceneOf(r)), Snapshots(SceneOf(r), ask, n), f, n)
          <==> !GoalMeanings.FreshWithin(SightAt(SceneOf(r), ask, n), (x.place.value, x.thing.value), x.threshold.value, n)))
  {
    hide *;
    var s := SceneOf(r);
    AcceptedRunnable(r);
    ScenePaired(r, s);
    var f := ItemOf(r.failures, s.failures, CarriesFailure, x);
    SceneBreaches(s, ask, f, n);
    SightsAt(s, ask, n, n);
    StaleIs(x, f, RulesOf(s), Sights(s, ask, n), n);
  }

  lemma StaleIs(x: RawFailure, f: Goals.Failure, rules: Goals.Rules, vs: seq<GoalMeanings.Sight>, n: nat)
    requires CarriesFailure(x, f) && x.kind.StaleKind? && 0 < n <= |vs|
    ensures x.place.Some? && x.thing.Some? && x.threshold.Some?
    ensures GoalMeanings.Holds(rules, vs, f, n) <==> !GoalMeanings.FreshWithin(vs[n - 1], (x.place.value, x.thing.value), x.threshold.value, n)
  {
    hide GoalMeanings.FreshWithin;
  }

  /** The outcome of the run of an accepted scene is told by stock, deliveries and running transforms alone. */
  lemma DeclaredOutcome(r: RawScene, ask: Agents.Backend, n: nat)
    requires Validate(r).Some? && n <= U64_MAX
    ensures var o, rules, vs := WorldAt(SceneOf(r), ask, n).goals.outcome, RulesOf(SceneOf(r)), Sights(SceneOf(r), ask, n);
      && Paired(r.failures, rules.failures, CarriesFailure) && Paired(r.victories, rules.victories, CarriesVictory)
      && Paired(r.objectives, rules.objectives, CarriesObjective)
      && (forall id :: o == Goals.Lost(id) <==> exists t: nat, i :: t <= n && GoalMeanings.LosesOn(rules, vs, i, t) && rules.failures[i].id == id)
      && (o == Goals.Won <==> GoalMeanings.WinsBy(rules, vs, n))
  {
    hide *;
    AcceptedRunnable(r);
    RulesPaired(r, SceneOf(r));
    SceneOutcomeTold(SceneOf(r), ask, n);
  }

  lemma RulesPaired(r: RawScene, s: Scene)
    requires Carries(r, s)
    ensures Paired(r.failures, RulesOf(s).failures, CarriesFailure) && Paired(r.victories, RulesOf(s).victories, CarriesVictory)
    ensures Paired(r.objectives, RulesOf(s).objectives, CarriesObjective)
  {
    hide Paired, PairedBoards;
  }
}
