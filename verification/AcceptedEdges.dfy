/** Two scenes the loader accepts, on the edge of what the engine keeps: one loses a unit, one overfills a slot. */
module AcceptedEdges {
  import opened Base
  import opened Text
  import opened Order
  import opened Sl1Scene
  import opened Loading
  import opened Loader
  import opened Pressures
  import opened Plants
  import opened Reservations
  import opened PlantRuns
  import opened Capacities
  import Agents
  import Goals
  import Milestones
  import opened Sl1State
  import opened TickEngine
  import opened Sl1Runs
  import opened LoaderTheorems

  // ---- A place with one slot, one transform that fills it, and perhaps one pressure that floods it on tick 2 ----

  const SLOT: Slot := ("p", "x")

  function RawFlood(): RawPressure { RawPressure("q", 2, 1, SourceKind, "p", Some("x"), Some(1000), None, None, None) }
  function Flood(): Pressure { Pressure("q", 2, 1, "p", SourceMultiplier("x", 1000)) }

  function StoreOf(cap: u64, stock: u64): map<Id, StorageSlot> { map["x" := StorageSlot(cap, stock)] }

  function RawStore(cap: u64, stock: u64): RawPlace { RawPlace("p", ["x"], true, map[], StoreOf(cap, stock), [], [], [], map[]) }
  function Store(cap: u64, stock: u64): Place { Place("p", map[], StoreOf(cap, stock), [], [], map[]) }

  function RawFiller(duration: u64): RawTransform {
    RawTransform("a", ["x"], "p", [], [Item("x", 1)], 1, duration, duration, [], Some(Drop), 1)
  }
  function Filler(duration: u64): Transform { Transform("a", "p", [], [Item("x", 1)], 1, duration, duration, [], Drop, 1) }

  const STUFF := Thing("x", [], None, None)

  function OneSlot(cap: u64, stock: u64, duration: u64, flood: bool): RawScene {
    RawScene(SL1_SCHEMA_VERSION, {}, [RawThing("x", ["x"], [], None, None, None)], [RawStore(cap, stock)], [], [RawFiller(duration)], [],
             if flood then [RawFlood()] else [], [], [], [], None, [], [])
  }

  function OneSlotScene(cap: u64, stock: u64, duration: u64, flood: bool): Scene {
    Scene([STUFF], [Store(cap, stock)], [], [Filler(duration)], [], if flood then [Flood()] else [], [], [], [], None, [], [])
  }

  lemma Words()
    ensures !Blank("x") && ValidId("x") && ValidId("p") && ValidId("a") && ValidId("q") && !Blank("p")
  {
    assert Trim("x") == "x" && Trim("p") == "p";
  }

  lemma ListedOne<R, T(!new)>(raw: R, check: R -> Option<T>, key: T -> string)
    requires check(raw).Some?
    ensures Listed([raw], check, key) == Some([check(raw).value]) == Section([raw], check, key)
  {
    var x := check(raw).value;
    assert Checked([raw], check).Some?;
    var items := Checked([raw], check).value;
    assert check([raw][0]) == Some(items[0]) && items == [x];
    assert [x][..0] == [] && Sort([x], key) == [x];
  }

  lemma ListedNone<R, T(!new)>(check: R -> Option<T>, key: T -> string)
    ensures Listed([], check, key) == Some([]) == Section([], check, key)
  {
  }

  lemma WorldAccepts(cap: u64, stock: u64, duration: u64, flood: bool)
    requires 1 <= cap && stock <= cap
    ensures CheckWorld(OneSlot(cap, stock, duration, flood)) == Some(([STUFF], [Store(cap, stock)], []))
  {
    var r := OneSlot(cap, stock, duration, flood);
    Words();
    hide Blank, ValidId, Listed, Section;
    ListedNone(NonBlank, Self);
    assert CheckThing(r.things[0]) == Some(STUFF);
    ListedOne(r.things[0], CheckThing, ThingKey);
    assert Has([STUFF], ThingKey, "x") by { assert ThingKey([STUFF][0]) == "x"; }
    assert CheckPlace([STUFF], RawStore(cap, stock)) == Some(Store(cap, stock));
    ListedOne(RawStore(cap, stock), PlaceCheck([STUFF]), PlaceKey);
    ListedNone(LinkCheck([STUFF], [Store(cap, stock)]), LinkKey);
  }

  lemma FillerAccepts(things: seq<Thing>, places: seq<Place>, cap: u64, stock: u64, duration: u64)
    requires things == [STUFF] && places == [Store(cap, stock)] && 1 <= duration <= MAX_TICKS
    ensures CheckTransform(things, places, RawFiller(duration)) == Some(Filler(duration))
  {
    Words();
    hide Blank, ValidId, Listed;
    assert Has(things, ThingKey, "x") by { assert ThingKey(things[0]) == "x"; }
    ListedNone(ItemCheck(things), ItemKey);
    ListedOne(Item("x", 1), ItemCheck(things), ItemKey);
  }

  lemma FloodAccepts(things: seq<Thing>, places: seq<Place>, cap: u64, stock: u64)
    requires things == [STUFF] && places == [Store(cap, stock)]
    ensures CheckPressure(things, places, [], [], RawFlood()) == Some(Flood())
  {
    Words();
    hide Blank, ValidId;
    assert Has(things, ThingKey, "x") by { assert ThingKey(things[0]) == "x"; }
  }

  lemma WorkAccepts(cap: u64, stock: u64, duration: u64, flood: bool)
    requires 1 <= duration <= MAX_TICKS
    ensures var s := OneSlotScene(cap, stock, duration, flood);
      CheckWork(OneSlot(cap, stock, duration, flood), s.things, s.places, []) == Some((s.transforms, [], s.pressure))
  {
    var s := OneSlotScene(cap, stock, duration, flood);
    FillerAccepts(s.things, s.places, cap, stock, duration);
    FloodAccepts(s.things, s.places, cap, stock);
    hide Section, CheckTransform, CheckPressure;
    ListedOne(RawFiller(duration), TransformCheck(s.things, s.places), TransformKey);
    ListedNone(DemandCheck(s.things, s.places), DemandKey);
    ListedNone(PressureCheck(s.things, s.places, [], []), PressureKey);
    ListedOne(RawFlood(), PressureCheck(s.things, s.places, [], []), PressureKey);
  }

  lemma Accepts(cap: u64, stock: u64, duration: u64, flood: bool)
    requires 1 <= cap && stock <= cap && 1 <= duration <= MAX_TICKS
    ensures Validate(OneSlot(cap, stock, duration, flood)) == Some(OneSlotScene(cap, stock, duration, flood))
  {
    var r, s := OneSlot(cap, stock, duration, flood), OneSlotScene(cap, stock, duration, flood);
    WorldAccepts(cap, stock, duration, flood);
    WorkAccepts(cap, stock, duration, flood);
    hide Section, CheckWorld, CheckWork;
    ListedNone(ObjectiveCheck(s.things, s.places, s.transforms, []), Goals.ObjectiveKey);
    ListedNone(FailureCheck(s.things, s.places, []), Goals.FailureKey);
    ListedNone(CheckVictory, Goals.VictoryKey);
    ListedNone(AgentCheck(CatalogOf(s)), Agents.AgentKey);
    ListedNone(MilestoneCheck(CatalogOf(s), []), Milestones.MilestoneKey);
    assert FinishScene(r, s.things, s.places, [], s.transforms, [], s.pressure) == Some(s);
  }

  // ---- Their runs ----

  predicate NoQuotas(ps: seq<Pressure>) { forall i :: 0 <= i < |ps| ==> !ps[i].params.QuotaReduction? }

  lemma {:induction false} OverlayNoQuotas(s: PressureState, ps: seq<Pressure>)
    requires NoQuotas(ps)
    ensures OverlayAll(s, ps).quota == map[]
  {
    if ps != [] { OverlayNoQuotas(s, ps[..|ps| - 1]); }
  }

  lemma {:induction false} PumpQuota(s: PressureState, ps: seq<Pressure>)
    ensures PumpAll(s, ps).0.quota == s.quota
  {
    if ps != [] { PumpQuota(s, ps[..|ps| - 1]); }
  }

  lemma TickNoQuotas(ps: seq<Pressure>, s: PressureState, now: u64)
    requires NoQuotas(ps) && s.quota == map[]
    ensures PressureTick(ps, s, now).0.quota == map[]
  {
    if ps != [] {
      var s1 := DeactivateAll(s, Ending(ps, Listing(s.active.Keys, Self), now), now);
      var s2 := ActivateAll(s1, ps, now);
      OverlayNoQuotas(s2, ps);
      PumpQuota(OverlayAll(s2, ps), ps);
    }
  }

  /** What the flood asks for on tick 2. */
  function FloodRequests(flood: bool): seq<Request> { if flood then [Request(SLOT, 1)] else [] }

  lemma FloodWanted(flood: bool)
    ensures var ps := if flood then [Flood()] else []; PressuresOk(ps) && NoQuotas(ps) && Wanted(ps, 1) == [] && Wanted(ps, 2) == FloodRequests(flood)
  {
    if flood {
      assert [Flood()][..0] == [];
      assert Whole(Flood(), 2) == 1;
    }
  }

  lemma WeatherOf(s: Scene, n: nat)
    requires 0 < n <= U64_MAX
    ensures var r := PressureTick(s.pressure, PressureAt(s.pressure, n - 1), n); WeatherAt(s, n) == Weather(r.0.quota, r.1)
  {
    hide PressureTick, PressureAt;
  }

  lemma PressuresUnfold(ps: seq<Pressure>)
    ensures PressureAt(ps, 0) == Calm
    ensures PressureAt(ps, 1) == PressureTick(ps, PressureAt(ps, 0), 1).0
  {
    PressureRunUnfold(ps, 0);
    PressureRunUnfold(ps, 1);
  }

  /** Without quotas, the weather is what the sources ask for. */
  lemma NoQuotaWeather(s: Scene, n: u64)
    requires PressuresOk(s.pressure) && NoQuotas(s.pressure) && n > 0 && PressureAt(s.pressure, n - 1).quota == map[]
    ensures WeatherAt(s, n) == Weather(map[], Wanted(s.pressure, n))
  {
    hide PressuresOk, NoQuotas, PressureAt, PressureTick, WeatherAt, Wanted, ActiveExactly, CarryExactly, OverlaysExactly;
    PressureClosedForm(s.pressure, n);
    TickNoQuotas(s.pressure, PressureAt(s.pressure, n - 1), n);
    WeatherOf(s, n);
  }

  lemma OneSlotWeathers(s: Scene, flood: bool)
    requires s.pressure == if flood then [Flood()] else []
    ensures Weathers(s, 2) == TwoTicks(FloodRequests(flood))
  {
    var ps := s.pressure;
    FloodWanted(flood);
    PressuresUnfold(ps);
    hide PressureTick, PressureAt, WeatherAt, Wanted, PressuresOk, NoQuotas;
    TickNoQuotas(ps, PressureAt(ps, 0), 1);
    NoQuotaWeather(s, 1);
    NoQuotaWeather(s, 2);
  }

  /** One place with one slot, and the filler. */
  predicate IsOneSlot(s: Scene, cap: u64, stock: u64, duration: u64) {
    s.places == [Store(cap, stock)] && s.transforms == [Filler(duration)]
  }

  lemma OneStore(cap: u64, stock: u64)
    ensures StorageFirst([Store(cap, stock)], 1) == map[SLOT := cap] && InitialFirst([Store(cap, stock)], 1) == map[SLOT := stock]
  {
    var places := [Store(cap, stock)];
    assert StorageFirst(places, 0) == map[] && InitialFirst(places, 0) == map[];
    assert CapacitiesOf(places[0]) == map[SLOT := cap] && InitialsOf(places[0]) == map[SLOT := stock];
  }

  lemma OneFiller(duration: u64)
    ensures [Filler(duration)] == Pourers(SLOT, [1], duration)
  {
    assert Name(0) == "a";
  }

  lemma OneSlotLayout(s: Scene, cap: u64, stock: u64, duration: u64)
    requires IsOneSlot(s, cap, stock, duration)
    ensures var lay := LayoutOf(s);
      && lay.ts == s.transforms == Pourers(SLOT, [1], duration)
      && lay.caps.storage == map[SLOT := cap] && lay.initial == map[SLOT := stock]
  {
    OneStore(cap, stock);
    OneFiller(duration);
    hide StorageFirst, InitialFirst, BaseFirst, BudgetFirst, Pourers, Store, Filler;
  }

  lemma SumOfOne()
    ensures SumOf([1]) == 1
  {
    assert [1][..0] == [];
  }

  lemma OneSlotPours(lay: Layout, cap: u64, stock: u64, duration: u64)
    requires lay.ts == Pourers(SLOT, [1], duration) && lay.caps.storage == map[SLOT := cap] && lay.initial == map[SLOT := stock]
    requires cap == U64_MAX || stock + 1 <= cap
    ensures PoursInto(lay, SLOT, [1], duration)
  {
    SumOfOne();
    hide Pourers, SumOf;
  }

  lemma OneSlotRun(s: Scene, flood: bool, ask: Agents.Backend)
    requires s.pressure == if flood then [Flood()] else []
    ensures WorldAt(s, ask, 2).plant == PlantAt(LayoutOf(s), TwoTicks(FloodRequests(flood)), 2)
  {
    hide WorldAt, PlantAt, LayoutOf, Weathers, TwoTicks, FloodRequests;
    OneSlotWeathers(s, flood);
    PlantsRun(s, ask, 2, 2);
  }

  /** More was stocked and delivered than is there, and nothing was taken. */
  predicate Lost(p: Plant, initial: map<Slot, u64>, s: Slot) {
    Get(p.inv, s) + Consumed(p.history, s) < Get(initial, s) + Produced(p.history, s)
  }

  lemma TopLoses(lay: Layout)
    requires lay.ts == Pourers(SLOT, [1], 1) && lay.caps.storage == map[SLOT := U64_MAX] && lay.initial == map[SLOT := U64_MAX]
    ensures Lost(PlantAt(lay, TwoTicks(FloodRequests(false)), 2), lay.initial, SLOT)
  {
    SumOfOne();
    assert [1][..1] == [1];
    OneSlotPours(lay, U64_MAX, U64_MAX, 1);
    SecondTick(lay, SLOT, [1], FloodRequests(false));
    hide PlantAt, Produced, Consumed, Pourers, TwoTicks, SumOf, PoursInto;
  }

  /**
   * A full slot at the very top of the 64-bit range: the room check saturates and cannot fail, and the unit
   * delivered on tick 2 is gone.
   */
  lemma TopSlotLoses(s: Scene, ask: Agents.Backend)
    requires IsOneSlot(s, U64_MAX, U64_MAX, 1) && s.pressure == []
    ensures Lost(WorldAt(s, ask, 2).plant, LayoutOf(s).initial, SLOT)
  {
    OneSlotRun(s, false, ask);
    hide *;
    OneSlotLayout(s, U64_MAX, U64_MAX, 1);
    TopLoses(LayoutOf(s));
  }

  /** The loader accepts the scene, and after two ticks it has lost a unit. */
  ghost predicate LosesUnits(r: RawScene, ask: Agents.Backend) {
    var s := Validate(r);
    s.Some? && Lost(WorldAt(s.value, ask, 2).plant, LayoutOf(s.value).initial, SLOT)
  }

  lemma LosesIf(r: RawScene, s: Scene, ask: Agents.Backend)
    requires Validate(r) == Some(s) && Lost(WorldAt(s, ask, 2).plant, LayoutOf(s).initial, SLOT)
    ensures LosesUnits(r, ask)
  {
    hide Validate, WorldAt, LayoutOf, Lost;
  }

  lemma SceneParts(cap: u64, stock: u64, duration: u64, flood: bool)
    ensures var s := OneSlotScene(cap, stock, duration, flood);
      IsOneSlot(s, cap, stock, duration) && s.pressure == if flood then [Flood()] else []
  {
  }

  /** An accepted scene loses a unit. */
  lemma TopCapacityLosesUnits(ask: Agents.Backend)
    ensures LosesUnits(OneSlot(U64_MAX, U64_MAX, 1, false), ask)
  {
    hide Validate, OneSlot, OneSlotScene, IsOneSlot, WorldAt, LayoutOf, Lost, LosesUnits, Flood;
    var s := OneSlotScene(U64_MAX, U64_MAX, 1, false);
    Accepts(U64_MAX, U64_MAX, 1, false);
    SceneParts(U64_MAX, U64_MAX, 1, false);
    TopSlotLoses(s, ask);
    LosesIf(OneSlot(U64_MAX, U64_MAX, 1, false), s, ask);
  }

  lemma OneInjected(lay: Layout)
    requires lay.caps.storage == map[SLOT := 1] && lay.initial == map[SLOT := 0]
    ensures InjectedTo(lay.initial, lay.caps.storage, FloodRequests(true), SLOT) == 1
  {
    var rs := FloodRequests(true);
    assert rs[..0] == [];
    assert InjectedTo(lay.initial, lay.caps.storage, rs, SLOT)
      == InjectedTo(lay.initial, lay.caps.storage, [], SLOT) + Injected(InjectAll(lay.initial, lay.caps.storage, []), lay.caps.storage, rs[0]);
  }

  lemma OneOverfills(lay: Layout)
    requires lay.ts == Pourers(SLOT, [1], 2) && lay.caps.storage == map[SLOT := 1] && lay.initial == map[SLOT := 0]
    ensures !InRoom(lay.caps, PlantAt(lay, TwoTicks(FloodRequests(true)), 2), SLOT)
  {
    OneInjected(lay);
    OneSlotPours(lay, 1, 0, 2);
    hide PlantAt, Pourers, TwoTicks, InRoom, InjectedTo, PoursInto;
    Overfilled(lay, SLOT, FloodRequests(true));
  }

  /** A slot for one unit, empty: its transform has a unit on its way when the pressure pours another in. */
  lemma FloodedSlot(s: Scene, ask: Agents.Backend)
    requires IsOneSlot(s, 1, 0, 2) && s.pressure == [Flood()]
    ensures !InRoom(LayoutOf(s).caps, WorldAt(s, ask, 2).plant, SLOT) && HasRoom(s)
  {
    OneSlotRun(s, true, ask);
    hide *;
    OneSlotLayout(s, 1, 0, 2);
    OneOverfills(LayoutOf(s));
    FloodHasRoom(s);
  }

  lemma SmallCapsFit(ts: seq<Transform>, caps: Caps, sources: set<Slot>)
    requires caps.storage == map[SLOT := 1]
    ensures CapsFit(ts, caps, sources)
  {
    hide TotalSum;
  }

  lemma FloodHasRoom(s: Scene)
    requires LayoutOf(s).caps.storage == map[SLOT := 1]
    ensures HasRoom(s)
  {
    hide CapsFit, CapsOf, BudgetFirst, InitialFirst;
    SmallCapsFit(s.transforms, CapsOf(s.places), Sources(s));
  }

  /** The loader accepts the scene and it has room to lose nothing, yet after two ticks stock and what is on its way overfill a slot. */
  ghost predicate Overfills(r: RawScene, ask: Agents.Backend) {
    var s := Validate(r);
    s.Some? && HasRoom(s.value) && !InRoom(LayoutOf(s.value).caps, WorldAt(s.value, ask, 2).plant, SLOT)
  }

  lemma OverfillsIf(r: RawScene, s: Scene, ask: Agents.Backend)
    requires Validate(r) == Some(s) && HasRoom(s) && !InRoom(LayoutOf(s).caps, WorldAt(s, ask, 2).plant, SLOT)
    ensures Overfills(r, ask)
  {
    hide Validate, WorldAt, LayoutOf, InRoom, HasRoom;
  }

  /** An accepted scene overfills a slot. */
  lemma FloodOverfills(ask: Agents.Backend)
    ensures Overfills(OneSlot(1, 0, 2, true), ask)
  {
    hide Validate, OneSlot, OneSlotScene, IsOneSlot, WorldAt, LayoutOf, InRoom, HasRoom, Overfills, Flood;
    var s := OneSlotScene(1, 0, 2, true);
    Accepts(1, 0, 2, true);
    SceneParts(1, 0, 2, true);
    FloodedSlot(s, ask);
    OverfillsIf(OneSlot(1, 0, 2, true), s, ask);
  }
}
