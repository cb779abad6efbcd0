/** The loader accepts exactly the acceptable declarations, and what it loads carries what they declare. */
module Acceptance {
  import opened Base
  import opened Text
  import opened Order
  import opened Sl1Scene
  import opened Loading
  import opened Loader
  import opened Declarations
  import opened LoaderTheorems
  import Goals
  import Boards
  import Agents
  import Milestones
  import opened Sl1State

  // ---- One list ----

  lemma ListedExactly<R, T(!new)>(raws: seq<R>, check: R -> Option<T>, key: T -> string, id: R -> string)
    requires forall r :: r in raws && check(r).Some? ==> key(check(r).value) == id(r)
    ensures Listed(raws, check, key).Some? <==> DistinctBy(raws, id) && forall r :: r in raws ==> check(r).Some?
  {
    if forall r :: r in raws ==> check(r).Some? {
      assert forall i :: 0 <= i < |raws| ==> raws[i] in raws;
      var items := Checked(raws, check).value;
      assert forall i :: 0 <= i < |raws| ==> key(items[i]) == id(raws[i]);
    } else {
      var r :| r in raws && check(r).None?;
      var i :| 0 <= i < |raws| && raws[i] == r;
      assert check(raws[i]).None?;
    }
  }

  lemma {:induction false} CheckedSame<R>(raws: seq<R>, check: R -> Option<R>)
    requires Checked(raws, check).Some? && forall r :: r in raws && check(r).Some? ==> check(r).value == r
    ensures Checked(raws, check).value == raws
  {
    var items := Checked(raws, check).value;
    forall i | 0 <= i < |raws| ensures items[i] == raws[i] { assert raws[i] in raws; }
  }

  lemma ListedSame<R>(raws: seq<R>, check: R -> Option<R>, key: R -> string)
    requires Listed(raws, check, key).Some? && forall r :: r in raws && check(r).Some? ==> check(r).value == r
    ensures Same(Listed(raws, check, key).value, raws)
  {
    CheckedSame(raws, check);
  }

  lemma ListedPairs<R(!new), T(!new)>(raws: seq<R>, check: R -> Option<T>, key: T -> string, carries: (R, T) -> bool)
    requires Listed(raws, check, key).Some? && forall r :: r in raws && check(r).Some? ==> carries(r, check(r).value)
    ensures Paired(raws, Listed(raws, check, key).value, carries)
  {
    ListedIs(raws, check, key);
    hide Listed, SortedBy;
    var items := Listed(raws, check, key).value;
    assert AllCarried(raws, items, carries) by {
      forall r | r in raws ensures exists x :: x in items && carries(r, x) { assert carries(r, check(r).value); }
    }
    assert AllDeclared(raws, items, carries) by {
      forall x | x in items ensures exists r :: r in raws && carries(r, x) {
        var r :| r in raws && check(r) == Some(x);
        assert carries(r, x);
      }
    }
    hide AllCarried, AllDeclared;
  }

  /** A section is accepted if it is short enough, repeats no id and its every entry is good; it then pairs with its declarations. */
  lemma SectionExactly<R(!new), T(!new)>(
    raws: seq<R>, check: R -> Option<T>, key: T -> string, id: R -> string, good: R -> bool, carries: (R, T) -> bool)
    requires forall r :: r in raws ==> (check(r).Some? <==> good(r))
    requires forall r :: r in raws && check(r).Some? ==> carries(r, check(r).value) && key(check(r).value) == id(r)
    ensures Section(raws, check, key).Some? <==> GoodList(raws, 100_000, id, good)
    ensures Section(raws, check, key).Some? ==> SortedBy(Section(raws, check, key).value, key) && Paired(raws, Section(raws, check, key).value, carries)
    ensures BoardSection(raws, check, key).Some? <==> GoodList(raws, 1_000, id, good)
    ensures BoardSection(raws, check, key).Some? ==> SortedBy(BoardSection(raws, check, key).value, key) && Paired(raws, BoardSection(raws, check, key).value, carries)
  {
    ListedExactly(raws, check, key, id);
    if Listed(raws, check, key).Some? {
      ListedIs(raws, check, key);
      ListedPairs(raws, check, key, carries);
    }
    hide Listed, SortedBy, Paired;
  }

  lemma RawOf<R(!new), T(!new)>(raws: seq<R>, items: seq<T>, carries: (R, T) -> bool, x: T) returns (r: R)
    requires Paired(raws, items, carries) && x in items
    ensures r in raws && carries(r, x)
  {
    hide AllCarried;
    r :| r in raws && carries(r, x);
  }

  lemma ItemOf<R(!new), T(!new)>(raws: seq<R>, items: seq<T>, carries: (R, T) -> bool, r: R) returns (x: T)
    requires Paired(raws, items, carries) && r in raws
    ensures x in items && carries(r, x)
  {
    hide AllDeclared;
    x :| x in items && carries(r, x);
  }

  lemma HasIn<T>(items: seq<T>, key: T -> string, name: Id)
    ensures Has(items, key, name) <==> exists x :: x in items && key(x) == name
  {
    if i :| 0 <= i < |items| && key(items[i]) == name { assert items[i] in items; }
    if x :| x in items && key(x) == name { var i :| 0 <= i < |items| && items[i] == x; }
  }

  lemma SameIds<R(!new), T(!new)>(raws: seq<R>, items: seq<T>, carries: (R, T) -> bool, key: T -> string, id: R -> string)
    requires Paired(raws, items, carries) && forall r, x :: carries(r, x) ==> key(x) == id(r)
    ensures forall name :: Has(items, key, name) <==> Has(raws, id, name)
  {
    hide Paired, Has;
    forall name ensures Has(items, key, name) <==> Has(raws, id, name) {
      HasIn(items, key, name);
      HasIn(raws, id, name);
      if x :| x in items && key(x) == name { var r := RawOf(raws, items, carries, x); }
      if r :| r in raws && id(r) == name { var x := ItemOf(raws, items, carries, r); }
    }
  }

  lemma SameMember<T>(a: seq<T>, b: seq<T>)
    requires Same(a, b)
    ensures |a| == |b| && forall x :: x in a <==> x in b
  {
    SameMembers(a, b);
  }

  lemma WordsListed(ws: seq<string>)
    ensures Listed(ws, NonBlank, Self).Some? <==> Words(ws)
    ensures Listed(ws, NonBlank, Self).Some? ==> Same(Listed(ws, NonBlank, Self).value, ws)
  {
    ListedExactly(ws, NonBlank, Self, Self);
    hide Blank;
    if Listed(ws, NonBlank, Self).Some? { ListedSame(ws, NonBlank, Self); }
    hide Listed;
    assert forall i :: 0 <= i < |ws| ==> ws[i] in ws;
  }

  // ---- Things ----

  lemma ContractExactly(c: RawContract)
    ensures CheckContract(c).Some? <==> GoodContract(c)
    ensures CheckContract(c).Some? ==> CarriesContract(Some(c), Some(CheckContract(c).value))
  {
    WordsListed(c.required);
    hide Listed, Words;
  }

  lemma ThingExactly(x: RawThing)
    ensures CheckThing(x).Some? <==> GoodThing(x)
    ensures CheckThing(x).Some? ==> CarriesThing(x, CheckThing(x).value) && CheckThing(x).value.id == x.id
  {
    WordsListed(x.tags);
    if x.contract.Some? { ContractExactly(x.contract.value); }
    hide Listed, Words, ValidId, NoneBlank, CheckContract, GoodContract, Same;
  }

  /** The loaded things are the declared ones, with their tags. */
  ghost predicate ThingsLoaded(r: RawScene, things: seq<Thing>) {
    (forall id :: HasThing(things, id) <==> IsThing(r, id)) && (forall w :: Names(things, w) <==> Named(r, w))
  }

  lemma TagsLoaded(r: RawScene, things: seq<Thing>)
    requires Paired(r.things, things, CarriesThing)
    ensures ThingsLoaded(r, things)
  {
    SameIds(r.things, things, CarriesThing, ThingKey, RawThingId);
    hide Paired, Has, Names, Named;
    forall w ensures Names(things, w) <==> Named(r, w) { TagLoaded(r, things, w); }
  }

  lemma TagLoaded(r: RawScene, things: seq<Thing>, w: Id)
    requires Paired(r.things, things, CarriesThing) && (HasThing(things, w) <==> IsThing(r, w))
    ensures Names(things, w) <==> Named(r, w)
  {
    hide Paired, HasThing, IsThing, Same;
    if i :| 0 <= i < |things| && w in things[i].tags {
      var x := RawOf(r.things, things, CarriesThing, things[i]);
      SameMember(things[i].tags, x.tags);
      var j :| 0 <= j < |r.things| && r.things[j] == x;
    }
    if j :| 0 <= j < |r.things| && w in r.things[j].tags {
      var t := ItemOf(r.things, things, CarriesThing, r.things[j]);
      SameMember(t.tags, r.things[j].tags);
      var i :| 0 <= i < |things| && things[i] == t;
    }
  }

  lemma ThingsExactly(r: RawScene)
    ensures Section(r.things, CheckThing, ThingKey).Some? <==> GoodList(r.things, 100_000, RawThingId, GoodThing)
    ensures Section(r.things, CheckThing, ThingKey).Some? ==>
      Paired(r.things, Section(r.things, CheckThing, ThingKey).value, CarriesThing) && ThingsLoaded(r, Section(r.things, CheckThing, ThingKey).value)
  {
    forall x { ThingExactly(x); }
    hide CheckThing, GoodThing, CarriesThing, Section, GoodList, Paired, ThingsLoaded, SortedBy, BoardSection;
    SectionExactly(r.things, CheckThing, ThingKey, RawThingId, GoodThing, CarriesThing);
    if Section(r.things, CheckThing, ThingKey).Some? { TagsLoaded(r, Section(r.things, CheckThing, ThingKey).value); }
  }

  // ---- Places ----

  lemma AllNamed(things: seq<Thing>, r: RawScene, ws: seq<string>, listed: seq<string>)
    requires ThingsLoaded(r, things) && Same(listed, ws)
    ensures (forall i :: 0 <= i < |listed| ==> Names(things, listed[i])) <==> forall w :: w in ws ==> Named(r, w)
  {
    SameMember(listed, ws);
    hide Names, Named;
    if forall i :: 0 <= i < |listed| ==> Names(things, listed[i]) {
      forall w | w in ws ensures Named(r, w) { var i :| 0 <= i < |listed| && listed[i] == w; }
    }
    assert forall i :: 0 <= i < |listed| ==> listed[i] in listed;
  }

  lemma WordsNamed(r: RawScene, things: seq<Thing>, ws: seq<string>)
    requires ThingsLoaded(r, things)
    ensures var l := Listed(ws, NonBlank, Self);
      && (l.Some? <==> Words(ws)) && (l.Some? ==> Same(l.value, ws))
      && (l.Some? ==> ((forall i :: 0 <= i < |l.value| ==> Names(things, l.value[i])) <==> forall w :: w in ws ==> Named(r, w)))
  {
    WordsListed(ws);
    if Listed(ws, NonBlank, Self).Some? { AllNamed(things, r, ws, Listed(ws, NonBlank, Self).value); }
    hide Listed, Words, ThingsLoaded, Names, Named;
  }

  lemma StorageExactly(r: RawScene, things: seq<Thing>, storage: map<Id, StorageSlot>)
    requires ThingsLoaded(r, things)
    ensures StorageOk(things, storage)
      <==> forall k :: k in storage ==> !Blank(k) && IsThing(r, k) && 0 < storage[k].capacity && storage[k].initial <= storage[k].capacity
  {
    hide Blank, HasThing, IsThing, Names, Named;
  }

  lemma StatesExactly(capacity: map<Id, u64>, states: map<Id, Operating>)
    ensures StatesOk(capacity, states)
      <==> (forall k :: k in states ==> !Blank(k))
           && forall k :: k in states && states[k].UsedPercentGte? ==> ValidId(states[k].bucket) && states[k].bucket in capacity && states[k].threshold <= 100
  {
    hide Blank, ValidId;
  }

  lemma PlaceExactly(r: RawScene, things: seq<Thing>, x: RawPlace)
    requires ThingsLoaded(r, things)
    ensures CheckPlace(things, x).Some? <==> GoodPlace(r, x)
    ensures CheckPlace(things, x).Some? ==> CarriesPlace(x, CheckPlace(things, x).value) && CheckPlace(things, x).value.id == x.id
  {
    hide Listed, Words, ValidId, NoneBlank, Blank, Same, StorageOk, StatesOk, IsThing, Names, Named, ThingsLoaded;
    WordsNamed(r, things, x.accepts);
    WordsNamed(r, things, x.produces);
    WordsListed(x.failureDomains);
    StorageExactly(r, things, x.storage);
    StatesExactly(x.capacity, x.states);
  }

  lemma FindHas(places: seq<Place>, id: Id)
    ensures Goals.FindPlace(places, id).Some? <==> Has(places, PlaceKey, id)
  {
    var f := Goals.FindPlace(places, id);
    if f.Some? { var i :| 0 <= i < |places| && places[i] == f.value; }
    if i :| 0 <= i < |places| && PlaceKey(places[i]) == id { assert places[i] in places; }
  }

  /** The loaded place with an id has what the declared one has. */
  lemma PlaceFound(r: RawScene, places: seq<Place>, id: Id)
    requires Paired(r.places, places, CarriesPlace) && SortedBy(places, PlaceKey)
    ensures Goals.FindPlace(places, id).Some? ==> exists p :: p in r.places && p.id == id && CarriesPlace(p, Goals.FindPlace(places, id).value)
    ensures forall p :: p in r.places && p.id == id ==> Goals.FindPlace(places, id).Some? && CarriesPlace(p, Goals.FindPlace(places, id).value)
  {
    hide Paired, Same;
    var f := Goals.FindPlace(places, id);
    if f.Some? {
      var p := RawOf(r.places, places, CarriesPlace, f.value);
      assert p.id == id;
    }
    forall p | p in r.places && p.id == id ensures f.Some? && CarriesPlace(p, f.value) {
      var x := ItemOf(r.places, places, CarriesPlace, p);
      SamePlace(places, x, f.value);
    }
  }

  lemma SamePlace(places: seq<Place>, x: Place, y: Place)
    requires SortedBy(places, PlaceKey) && x in places && y in places && x.id == y.id
    ensures x == y
  {
    var i :| 0 <= i < |places| && places[i] == x;
    var j :| 0 <= j < |places| && places[j] == y;
    SortedDistinct(places, PlaceKey, i, j);
  }

  /** What one place holds, declared and loaded. */
  ghost predicate PlaceLoaded(r: RawScene, places: seq<Place>, id: Id) {
    var f := Goals.FindPlace(places, id);
    && (Has(places, PlaceKey, id) <==> IsPlace(r, id)) && (f.Some? <==> IsPlace(r, id))
    && (forall thing :: (f.Some? && thing in f.value.storage) <==> StoredAt(r, id, thing))
    && (forall name :: (f.Some? && name in f.value.capacity) <==> BucketAt(r, id, name))
    && (forall state :: (f.Some? && state in f.value.states && f.value.states[state].UsedPercentGte?) <==> PercentStateAt(r, id, state))
  }

  /** The loaded places are the declared ones, with what they hold. */
  ghost predicate PlacesLoaded(r: RawScene, places: seq<Place>) { forall id :: PlaceLoaded(r, places, id) }

  lemma HoldingLoaded(r: RawScene, places: seq<Place>, id: Id)
    requires Paired(r.places, places, CarriesPlace) && SortedBy(places, PlaceKey)
    requires Has(places, PlaceKey, id) <==> IsPlace(r, id)
    ensures PlaceLoaded(r, places, id)
  {
    hide Paired, SortedBy, Goals.FindPlace, Has, IsPlace, Same;
    FindHas(places, id);
    PlaceFound(r, places, id);
  }

  lemma HoldingsLoaded(r: RawScene, places: seq<Place>)
    requires Paired(r.places, places, CarriesPlace) && SortedBy(places, PlaceKey)
    ensures PlacesLoaded(r, places)
  {
    SameIds(r.places, places, CarriesPlace, PlaceKey, RawPlaceId);
    hide Paired, SortedBy, Has, PlaceLoaded, Same;
    forall id ensures PlaceLoaded(r, places, id) { HoldingLoaded(r, places, id); }
  }

  lemma PlacesExactly(r: RawScene, things: seq<Thing>)
    requires ThingsLoaded(r, things)
    ensures var s := Section(r.places, PlaceCheck(things), PlaceKey);
      && (s.Some? <==> GoodList(r.places, 100_000, RawPlaceId, PlaceTest(r)))
      && (s.Some? ==> Paired(r.places, s.value, CarriesPlace) && PlacesLoaded(r, s.value))
  {
    forall x { PlaceExactly(r, things, x); }
    hide CheckPlace, GoodPlace, CarriesPlace, Section, GoodList, Paired, PlacesLoaded, SortedBy, BoardSection, ThingsLoaded;
    SectionExactly(r.places, PlaceCheck(things), PlaceKey, RawPlaceId, PlaceTest(r), CarriesPlace);
    var s := Section(r.places, PlaceCheck(things), PlaceKey);
    if s.Some? { HoldingsLoaded(r, s.value); }
  }

  lemma LinkExactly(r: RawScene, things: seq<Thing>, places: seq<Place>, x: RawLink)
    requires ThingsLoaded(r, things) && PlacesLoaded(r, places)
    ensures CheckLink(things, places, x).Some? <==> GoodLink(r, x)
    ensures CheckLink(things, places, x).Some? ==> CarriesLink(x, CheckLink(things, places, x).value) && CheckLink(things, places, x).value.id == x.id
  {
    WordsNamed(r, things, x.compatibility);
    assert PlaceLoaded(r, places, x.from) && PlaceLoaded(r, places, x.to);
    hide Listed, Words, ValidId, NoneBlank, Blank, Same, Has, IsPlace, Names, Named, ThingsLoaded, PlacesLoaded;
  }

  lemma LinksExactly(r: RawScene, things: seq<Thing>, places: seq<Place>)
    requires ThingsLoaded(r, things) && PlacesLoaded(r, places)
    ensures var s := Section(r.links, LinkCheck(things, places), LinkKey);
      && (s.Some? <==> GoodList(r.links, 100_000, RawLinkId, LinkTest(r)))
      && (s.Some? ==> Paired(r.links, s.value, CarriesLink) && forall id :: Has(s.value, LinkKey, id) <==> Has(r.links, RawLinkId, id))
  {
    forall x { LinkExactly(r, things, places, x); }
    hide CheckLink, GoodLink, Section, GoodList, Paired, PlacesLoaded, SortedBy, BoardSection, ThingsLoaded, Has;
    SectionExactly(r.links, LinkCheck(things, places), LinkKey, RawLinkId, LinkTest(r), CarriesLink);
    var s := Section(r.links, LinkCheck(things, places), LinkKey);
    if s.Some? { SameIds(r.links, s.value, CarriesLink, LinkKey, RawLinkId); }
  }

  lemma WorldExactly(r: RawScene)
    ensures CheckWorld(r).Some? <==> GoodWorld(r)
    ensures CheckWorld(r).Some? ==>
      (var (things, places, links) := CheckWorld(r).value;
       && Paired(r.things, things, CarriesThing) && Paired(r.places, places, CarriesPlace) && Paired(r.links, links, CarriesLink)
       && ThingsLoaded(r, things) && PlacesLoaded(r, places) && forall id :: Has(links, LinkKey, id) <==> Has(r.links, RawLinkId, id))
  {
    hide Section, GoodList, Paired, PlacesLoaded, ThingsLoaded, Has, GoodThing, PlaceTest, LinkTest, CarriesThing, CarriesPlace, CarriesLink, PlaceCheck, LinkCheck;
    ThingsExactly(r);
    var s := Section(r.things, CheckThing, ThingKey);
    if s.Some? {
      PlacesExactly(r, s.value);
      var t := Section(r.places, PlaceCheck(s.value), PlaceKey);
      if t.Some? { LinksExactly(r, s.value, t.value); }
    }
  }

  // ---- Transforms, demand, pressure ----

  lemma ItemsExactly(r: RawScene, things: seq<Thing>, items: seq<Item>)
    requires ThingsLoaded(r, things)
    ensures Listed(items, ItemCheck(things), ItemKey).Some? <==> GoodItems(r, items)
    ensures Listed(items, ItemCheck(things), ItemKey).Some? ==> Same(Listed(items, ItemCheck(things), ItemKey).value, items)
  {
    ListedExactly(items, ItemCheck(things), ItemKey, ItemKey);
    if Listed(items, ItemCheck(things), ItemKey).Some? { ListedSame(items, ItemCheck(things), ItemKey); }
    hide Listed, HasThing, IsThing, Names, Named, Same;
  }

  lemma CostExactly(r: RawScene, places: seq<Place>, place: Id, cost: seq<Item>)
    requires PlacesLoaded(r, places) && Goals.FindPlace(places, place).Some?
    ensures (forall i :: 0 <= i < |cost| ==> !Blank(cost[i].name) && Within(cost[i].amount, MAX_AMOUNT) && cost[i].name in Goals.FindPlace(places, place).value.capacity)
      <==> forall i :: i in cost ==> !Blank(i.name) && UpTo(i.amount, AMOUNT) && BucketAt(r, place, i.name)
  {
    assert PlaceLoaded(r, places, place);
    hide Blank, Has, IsPlace, StoredAt, BucketAt, PercentStateAt, Goals.FindPlace, PlacesLoaded;
    assert forall i :: 0 <= i < |cost| ==> cost[i] in cost;
  }

  lemma TransformExactly(r: RawScene, things: seq<Thing>, places: seq<Place>, x: RawTransform)
    requires ThingsLoaded(r, things) && PlacesLoaded(r, places)
    ensures CheckTransform(things, places, x).Some? <==> GoodTransform(r, x)
    ensures CheckTransform(things, places, x).Some? ==> CarriesTransform(x, CheckTransform(things, places, x).value) && CheckTransform(things, places, x).value.id == x.id
  {
    hide Listed, ValidId, NoneBlank, Blank, Same, GoodItems, Has, IsPlace, BucketAt, Goals.FindPlace, ThingsLoaded, PlacesLoaded, PlaceLoaded, ItemCheck;
    PlaceKnown(r, places, x.runsOn);
    ItemsExactly(r, things, x.inputs);
    ItemsExactly(r, things, x.outputs);
    if Goals.FindPlace(places, x.runsOn).Some? { CostExactly(r, places, x.runsOn, x.cost); }
  }

  lemma PlaceKnown(r: RawScene, places: seq<Place>, id: Id)
    requires PlacesLoaded(r, places)
    ensures (Has(places, PlaceKey, id) <==> IsPlace(r, id)) && (Goals.FindPlace(places, id).Some? <==> IsPlace(r, id))
  {
    assert PlaceLoaded(r, places, id);
    hide Has, IsPlace, StoredAt, BucketAt, PercentStateAt, PlacesLoaded;
  }

  lemma TransformsExactly(r: RawScene, things: seq<Thing>, places: seq<Place>)
    requires ThingsLoaded(r, things) && PlacesLoaded(r, places)
    ensures var s := Section(r.transforms, TransformCheck(things, places), TransformKey);
      && (s.Some? <==> GoodList(r.transforms, 100_000, RawTransformId, TransformTest(r)))
      && (s.Some? ==> Paired(r.transforms, s.value, CarriesTransform) && forall id :: Has(s.value, TransformKey, id) <==> Has(r.transforms, RawTransformId, id))
  {
    forall x { TransformExactly(r, things, places, x); }
    hide CheckTransform, GoodTransform, Section, GoodList, Paired, PlacesLoaded, SortedBy, BoardSection, ThingsLoaded, Has;
    SectionExactly(r.transforms, TransformCheck(things, places), TransformKey, RawTransformId, TransformTest(r), CarriesTransform);
    var s := Section(r.transforms, TransformCheck(things, places), TransformKey);
    if s.Some? { SameIds(r.transforms, s.value, CarriesTransform, TransformKey, RawTransformId); }
  }

  lemma ScheduleExactly(s: RawSchedule)
    ensures CheckSchedule(s).Some? <==> GoodSchedule(s)
    ensures CheckSchedule(s).Some? ==> CarriesSchedule(s, CheckSchedule(s).value)
  {
    if s.ticks.Some? {
      var ticks := s.ticks.value;
      assert forall i :: 0 <= i < |ticks| ==> ticks[i] in ticks;
      if forall k :: 0 < k < |ticks| ==> ticks[k - 1] < ticks[k] {
        forall i, j | 0 <= i < j < |ticks| ensures ticks[i] < ticks[j] { Increasing(ticks, i, j); }
      }
    }
  }

  lemma NeedsExactly(r: RawScene, things: seq<Thing>, needs: seq<Id>)
    requires ThingsLoaded(r, things)
    ensures Listed(needs, ThingRef(things), Self).Some? <==> DistinctBy(needs, Self) && forall n :: n in needs ==> IsThing(r, n)
    ensures Listed(needs, ThingRef(things), Self).Some? ==> Same(Listed(needs, ThingRef(things), Self).value, needs)
  {
    ListedExactly(needs, ThingRef(things), Self, Self);
    if Listed(needs, ThingRef(things), Self).Some? { ListedSame(needs, ThingRef(things), Self); }
    hide Listed, HasThing, IsThing, Names, Named, Same;
  }

  lemma DemandExactly(r: RawScene, things: seq<Thing>, places: seq<Place>, x: RawDemand)
    requires ThingsLoaded(r, things) && PlacesLoaded(r, places)
    ensures CheckDemand(things, places, x).Some? <==> GoodDemand(r, x)
    ensures CheckDemand(things, places, x).Some? ==> CarriesDemand(x, CheckDemand(things, places, x).value) && CheckDemand(things, places, x).value.id == x.id
  {
    assert PlaceLoaded(r, places, x.target);
    NeedsExactly(r, things, x.needs);
    ScheduleExactly(x.schedule);
    hide Listed, ValidId, NoneBlank, Blank, Same, Has, IsPlace, IsThing, CheckSchedule, GoodSchedule, CarriesSchedule, ThingsLoaded, PlacesLoaded, DistinctBy;
  }

  lemma DemandsExactly(r: RawScene, things: seq<Thing>, places: seq<Place>)
    requires ThingsLoaded(r, things) && PlacesLoaded(r, places)
    ensures var s := Section(r.demand, DemandCheck(things, places), DemandKey);
      && (s.Some? <==> GoodList(r.demand, 100_000, RawDemandId, DemandTest(r)))
      && (s.Some? ==> Paired(r.demand, s.value, CarriesDemand) && forall id :: Has(s.value, DemandKey, id) <==> Has(r.demand, RawDemandId, id))
  {
    forall x { DemandExactly(r, things, places, x); }
    hide CheckDemand, GoodDemand, Section, GoodList, Paired, PlacesLoaded, SortedBy, BoardSection, ThingsLoaded, Has;
    SectionExactly(r.demand, DemandCheck(things, places), DemandKey, RawDemandId, DemandTest(r), CarriesDemand);
    var s := Section(r.demand, DemandCheck(things, places), DemandKey);
    if s.Some? { SameIds(r.demand, s.value, CarriesDemand, DemandKey, RawDemandId); }
  }

  /** What later sections may name, loaded as declared. */
  ghost predicate WorldLoaded(r: RawScene, things: seq<Thing>, places: seq<Place>, links: seq<Link>) {
    ThingsLoaded(r, things) && PlacesLoaded(r, places) && forall id :: Has(links, LinkKey, id) <==> Has(r.links, RawLinkId, id)
  }

  ghost predicate DemandLoaded(r: RawScene, demand: seq<Demand>) { forall id :: Has(demand, DemandKey, id) <==> IsDemand(r, id) }

  lemma PressureExactly(r: RawScene, things: seq<Thing>, places: seq<Place>, demand: seq<Demand>, links: seq<Link>, x: RawPressure)
    requires WorldLoaded(r, things, places, links) && DemandLoaded(r, demand)
    ensures var p := CheckPressure(things, places, demand, links, x);
      (p.Some? <==> GoodPressure(r, x)) && (p.Some? ==> CarriesPressure(x, p.value) && p.value.id == x.id)
  {
    hide ValidId, Blank, Has, HasThing, IsPlace, IsThing, IsDemand, StoredAt, BucketAt, PercentStateAt, Goals.FindPlace, Names, Named;
    assert PlaceLoaded(r, places, x.target);
    assert Has(demand, DemandKey, x.target) <==> IsDemand(r, x.target);
    assert Has(links, LinkKey, x.target) <==> Has(r.links, RawLinkId, x.target);
    assert HasThing(things, x.target) <==> IsThing(r, x.target);
    assert x.thing.Some? ==> (HasThing(things, x.thing.value) <==> IsThing(r, x.thing.value));
    hide WorldLoaded, DemandLoaded, ThingsLoaded, PlacesLoaded;
  }

  lemma PressuresExactly(r: RawScene, things: seq<Thing>, places: seq<Place>, demand: seq<Demand>, links: seq<Link>)
    requires WorldLoaded(r, things, places, links) && DemandLoaded(r, demand)
    ensures var s := Section(r.pressure, PressureCheck(things, places, demand, links), PressureKey);
      && (s.Some? <==> GoodList(r.pressure, 100_000, RawPressureId, PressureTest(r)))
      && (s.Some? ==> Paired(r.pressure, s.value, CarriesPressure) && forall id :: Has(s.value, PressureKey, id) <==> Has(r.pressure, RawPressureId, id))
  {
    forall x { PressureExactly(r, things, places, demand, links, x); }
    hide CheckPressure, GoodPressure, Section, GoodList, Paired, WorldLoaded, SortedBy, BoardSection, DemandLoaded, Has;
    SectionExactly(r.pressure, PressureCheck(things, places, demand, links), PressureKey, RawPressureId, PressureTest(r), CarriesPressure);
    var s := Section(r.pressure, PressureCheck(things, places, demand, links), PressureKey);
    if s.Some? { SameIds(r.pressure, s.value, CarriesPressure, PressureKey, RawPressureId); }
  }

  ghost predicate WorkLoaded(r: RawScene, transforms: seq<Transform>, demand: seq<Demand>, pressure: seq<Pressure>) {
    && (forall id :: Has(transforms, TransformKey, id) <==> Has(r.transforms, RawTransformId, id)) && DemandLoaded(r, demand)
    && (forall id :: Has(pressure, PressureKey, id) <==> Has(r.pressure, RawPressureId, id))
  }

  lemma WorkExactly(r: RawScene, things: seq<Thing>, places: seq<Place>, links: seq<Link>)
    requires WorldLoaded(r, things, places, links)
    ensures var w := CheckWork(r, things, places, links);
      && (w.Some? <==> GoodWork(r))
      && (w.Some? ==>
           && Paired(r.transforms, w.value.0, CarriesTransform) && Paired(r.demand, w.value.1, CarriesDemand) && Paired(r.pressure, w.value.2, CarriesPressure)
           && WorkLoaded(r, w.value.0, w.value.1, w.value.2))
  {
    hide Section, GoodList, Paired, PlacesLoaded, ThingsLoaded, Has, TransformTest, DemandTest, PressureTest, TransformCheck, DemandCheck, PressureCheck;
    TransformsExactly(r, things, places);
    DemandsExactly(r, things, places);
    var s := Section(r.demand, DemandCheck(things, places), DemandKey);
    if s.Some? {
      assert DemandLoaded(r, s.value);
      PressuresExactly(r, things, places, s.value, links);
    }
  }

  // ---- Objectives, failure conditions, victory conditions ----

  lemma ObjectiveExactly(r: RawScene, things: seq<Thing>, places: seq<Place>, transforms: seq<Transform>, demand: seq<Demand>, x: RawObjective)
    requires ThingsLoaded(r, things) && PlacesLoaded(r, places) && DemandLoaded(r, demand)
    requires forall id :: Has(transforms, TransformKey, id) <==> Has(r.transforms, RawTransformId, id)
    ensures var o := CheckObjective(things, places, transforms, demand, x);
      (o.Some? <==> GoodObjective(r, x)) && (o.Some? ==> CarriesObjective(x, o.value) && o.value.id == x.id)
  {
    if x.place.Some? { assert PlaceLoaded(r, places, x.place.value); }
    if x.target.Some? { assert PlaceLoaded(r, places, x.target.value); }
    hide ValidId, Blank, Has, HasThing, IsPlace, IsThing, IsDemand, StoredAt, BucketAt, PercentStateAt, Goals.FindPlace, PlacesLoaded, Names, Named;
  }

  lemma ObjectivesExactly(r: RawScene, things: seq<Thing>, places: seq<Place>, transforms: seq<Transform>, demand: seq<Demand>)
    requires ThingsLoaded(r, things) && PlacesLoaded(r, places) && DemandLoaded(r, demand)
    requires forall id :: Has(transforms, TransformKey, id) <==> Has(r.transforms, RawTransformId, id)
    ensures var s := Section(r.objectives, ObjectiveCheck(things, places, transforms, demand), Goals.ObjectiveKey);
      && (s.Some? <==> GoodList(r.objectives, 100_000, RawObjectiveId, ObjectiveTest(r)))
      && (s.Some? ==> Paired(r.objectives, s.value, CarriesObjective) && forall id :: Has(s.value, Goals.ObjectiveKey, id) <==> Has(r.objectives, RawObjectiveId, id))
  {
    forall x { ObjectiveExactly(r, things, places, transforms, demand, x); }
    hide CheckObjective, GoodObjective, Section, GoodList, Paired, PlacesLoaded, ThingsLoaded, SortedBy, BoardSection, DemandLoaded, Has;
    SectionExactly(r.objectives, ObjectiveCheck(things, places, transforms, demand), Goals.ObjectiveKey, RawObjectiveId, ObjectiveTest(r), CarriesObjective);
    var s := Section(r.objectives, ObjectiveCheck(things, places, transforms, demand), Goals.ObjectiveKey);
    if s.Some? { SameIds(r.objectives, s.value, CarriesObjective, Goals.ObjectiveKey, RawObjectiveId); }
  }

  lemma FailureExactly(r: RawScene, things: seq<Thing>, places: seq<Place>, objectives: seq<Goals.Objective>, x: RawFailure)
    requires ThingsLoaded(r, things) && PlacesLoaded(r, places) && forall id :: Has(objectives, Goals.ObjectiveKey, id) <==> Has(r.objectives, RawObjectiveId, id)
    ensures var f := CheckFailure(things, places, objectives, x);
      (f.Some? <==> GoodFailure(r, x)) && (f.Some? ==> CarriesFailure(x, f.value) && f.value.id == x.id)
  {
    if x.place.Some? { assert PlaceLoaded(r, places, x.place.value); }
    hide ValidId, Blank, Has, HasThing, IsPlace, IsThing, StoredAt, BucketAt, PercentStateAt, Goals.FindPlace, PlacesLoaded, Names, Named;
  }

  lemma FailuresExactly(r: RawScene, things: seq<Thing>, places: seq<Place>, objectives: seq<Goals.Objective>)
    requires ThingsLoaded(r, things) && PlacesLoaded(r, places) && forall id :: Has(objectives, Goals.ObjectiveKey, id) <==> Has(r.objectives, RawObjectiveId, id)
    ensures var s := Section(r.failures, FailureCheck(things, places, objectives), Goals.FailureKey);
      && (s.Some? <==> GoodList(r.failures, 100_000, RawFailureId, FailureTest(r)))
      && (s.Some? ==> Paired(r.failures, s.value, CarriesFailure) && forall id :: Has(s.value, Goals.FailureKey, id) <==> Has(r.failures, RawFailureId, id))
  {
    forall x { FailureExactly(r, things, places, objectives, x); }
    hide CheckFailure, GoodFailure, Section, GoodList, Paired, PlacesLoaded, ThingsLoaded, SortedBy, BoardSection, Has;
    SectionExactly(r.failures, FailureCheck(things, places, objectives), Goals.FailureKey, RawFailureId, FailureTest(r), CarriesFailure);
    var s := Section(r.failures, FailureCheck(things, places, objectives), Goals.FailureKey);
    if s.Some? { SameIds(r.failures, s.value, CarriesFailure, Goals.FailureKey, RawFailureId); }
  }

  lemma VictoriesExactly(r: RawScene)
    ensures var s := Section(r.victories, CheckVictory, Goals.VictoryKey);
      (s.Some? <==> GoodList(r.victories, 100_000, RawVictoryId, GoodVictory)) && (s.Some? ==> Paired(r.victories, s.value, CarriesVictory))
  {
    hide ValidId, Section, GoodList, Paired, SortedBy, BoardSection;
    SectionExactly(r.victories, CheckVictory, Goals.VictoryKey, RawVictoryId, GoodVictory, CarriesVictory);
  }

  ghost predicate RulesLoaded(r: RawScene, objectives: seq<Goals.Objective>, failures: seq<Goals.Failure>) {
    && (forall id :: Has(objectives, Goals.ObjectiveKey, id) <==> Has(r.objectives, RawObjectiveId, id))
    && (forall id :: Has(failures, Goals.FailureKey, id) <==> Has(r.failures, RawFailureId, id))
  }

  lemma RulesExactly(r: RawScene, things: seq<Thing>, places: seq<Place>, transforms: seq<Transform>, demand: seq<Demand>)
    requires ThingsLoaded(r, things) && PlacesLoaded(r, places) && DemandLoaded(r, demand)
    requires forall id :: Has(transforms, TransformKey, id) <==> Has(r.transforms, RawTransformId, id)
    ensures var w := CheckRules(r, things, places, transforms, demand);
      && (w.Some? <==> GoodRules(r))
      && (w.Some? ==>
           && Paired(r.objectives, w.value.objectives, CarriesObjective) && Paired(r.failures, w.value.failures, CarriesFailure)
           && Paired(r.victories, w.value.victories, CarriesVictory) && RulesLoaded(r, w.value.objectives, w.value.failures))
  {
    hide Section, GoodList, Paired, PlacesLoaded, ThingsLoaded, DemandLoaded, Has, ObjectiveTest, FailureTest, ObjectiveCheck, FailureCheck;
    ObjectivesExactly(r, things, places, transforms, demand);
    VictoriesExactly(r);
    var s := Section(r.objectives, ObjectiveCheck(things, places, transforms, demand), Goals.ObjectiveKey);
    if s.Some? { FailuresExactly(r, things, places, s.value); }
  }

  // ---- Observability ----

  lemma DependsExactly(r: RawScene, things: seq<Thing>, ids: seq<Id>)
    requires ThingsLoaded(r, things)
    ensures Listed(ids, BoardRef(things), Self).Some? <==> Words(ids) && forall d :: d in ids ==> IsThing(r, d)
    ensures Listed(ids, BoardRef(things), Self).Some? ==> Same(Listed(ids, BoardRef(things), Self).value, ids)
  {
    ListedExactly(ids, BoardRef(things), Self, Self);
    if Listed(ids, BoardRef(things), Self).Some? { ListedSame(ids, BoardRef(things), Self); }
    hide Listed, HasThing, IsThing, Names, Named, Same, Blank, DistinctBy;
    assert forall i :: 0 <= i < |ids| ==> ids[i] in ids;
  }

  lemma DashboardExactly(r: RawScene, things: seq<Thing>, x: RawDashboard)
    requires ThingsLoaded(r, things)
    ensures var d := CheckDashboard(things, x);
      (d.Some? <==> GoodDashboard(r, x)) && (d.Some? ==> CarriesDashboard(x, d.value) && d.value.id == x.id)
  {
    DependsExactly(r, things, x.dependsOn);
    hide Listed, ValidId, Words, IsThing, Same, ThingsLoaded;
  }

  lemma DashboardsExactly(r: RawScene, things: seq<Thing>, o: RawObservability)
    requires ThingsLoaded(r, things)
    ensures var s := BoardSection(o.dashboards, DashboardCheck(things), Boards.DashboardKey);
      && (s.Some? <==> GoodList(o.dashboards, 1_000, RawDashboardId, DashboardTest(r)))
      && (s.Some? ==> Paired(o.dashboards, s.value, CarriesDashboard) && forall id :: Has(s.value, Boards.DashboardKey, id) <==> Has(o.dashboards, RawDashboardId, id))
  {
    forall x { DashboardExactly(r, things, x); }
    hide CheckDashboard, GoodDashboard, Section, GoodList, Paired, ThingsLoaded, SortedBy, BoardSection, Has, Same;
    SectionExactly(o.dashboards, DashboardCheck(things), Boards.DashboardKey, RawDashboardId, DashboardTest(r), CarriesDashboard);
    var s := BoardSection(o.dashboards, DashboardCheck(things), Boards.DashboardKey);
    if s.Some? { SameIds(o.dashboards, s.value, CarriesDashboard, Boards.DashboardKey, RawDashboardId); }
  }

  lemma BoardFound(ds: seq<Boards.Dashboard>, ms: seq<Boards.Metric>, id: Id)
    ensures Boards.FindDashboard(ds, id).Some? <==> Has(ds, Boards.DashboardKey, id)
    ensures Boards.FindMetric(ms, id).Some? <==> Has(ms, Boards.MetricKey, id)
  {
    HasIn(ds, Boards.DashboardKey, id);
    HasIn(ms, Boards.MetricKey, id);
    hide Has;
    if x :| x in ds && Boards.DashboardKey(x) == id { assert Boards.FindDashboard(ds, id).Some?; }
    if x :| x in ms && Boards.MetricKey(x) == id { assert Boards.FindMetric(ms, id).Some?; }
  }

  lemma MetricExactly(r: RawScene, things: seq<Thing>, places: seq<Place>, dashboards: seq<Boards.Dashboard>, o: RawObservability, x: RawMetric)
    requires ThingsLoaded(r, things) && PlacesLoaded(r, places)
    requires forall id :: Has(dashboards, Boards.DashboardKey, id) <==> Has(o.dashboards, RawDashboardId, id)
    ensures var m := CheckMetric(things, places, dashboards, x);
      (m.Some? <==> GoodMetric(r, o, x)) && (m.Some? ==> CarriesMetric(x, m.value) && m.value.id == x.id)
  {
    if x.place.Some? { assert PlaceLoaded(r, places, x.place.value); }
    if x.dashboard.Some? { BoardFound(dashboards, [], x.dashboard.value); }
    hide ValidId, Has, HasThing, IsPlace, IsThing, StoredAt, BucketAt, PercentStateAt, Goals.FindPlace, Boards.FindDashboard, PlacesLoaded, Names, Named;
  }

  lemma MetricsExactly(r: RawScene, things: seq<Thing>, places: seq<Place>, dashboards: seq<Boards.Dashboard>, o: RawObservability)
    requires ThingsLoaded(r, things) && PlacesLoaded(r, places)
    requires forall id :: Has(dashboards, Boards.DashboardKey, id) <==> Has(o.dashboards, RawDashboardId, id)
    ensures var s := BoardSection(o.metrics, MetricCheck(things, places, dashboards), Boards.MetricKey);
      && (s.Some? <==> GoodList(o.metrics, 1_000, RawMetricId, MetricTest(r, o)))
      && (s.Some? ==> Paired(o.metrics, s.value, CarriesMetric) && forall id :: Has(s.value, Boards.MetricKey, id) <==> Has(o.metrics, RawMetricId, id))
  {
    forall x { MetricExactly(r, things, places, dashboards, o, x); }
    hide CheckMetric, GoodMetric, Section, GoodList, Paired, ThingsLoaded, PlacesLoaded, SortedBy, BoardSection, Has;
    SectionExactly(o.metrics, MetricCheck(things, places, dashboards), Boards.MetricKey, RawMetricId, MetricTest(r, o), CarriesMetric);
    var s := BoardSection(o.metrics, MetricCheck(things, places, dashboards), Boards.MetricKey);
    if s.Some? { SameIds(o.metrics, s.value, CarriesMetric, Boards.MetricKey, RawMetricId); }
  }

  lemma AlertExactly(metrics: seq<Boards.Metric>, o: RawObservability, x: RawAlert)
    requires forall id :: Has(metrics, Boards.MetricKey, id) <==> Has(o.metrics, RawMetricId, id)
    ensures var a := CheckAlert(metrics, x); (a.Some? <==> GoodAlert(o, x)) && (a.Some? ==> CarriesAlert(x, a.value) && a.value.id == x.id)
  {
    BoardFound([], metrics, x.metric);
    hide ValidId, Has, Boards.FindMetric;
  }

  lemma AlertsExactly(metrics: seq<Boards.Metric>, o: RawObservability)
    requires forall id :: Has(metrics, Boards.MetricKey, id) <==> Has(o.metrics, RawMetricId, id)
    ensures var s := BoardSection(o.alerts, AlertCheck(metrics), Boards.AlertKey);
      && (s.Some? <==> GoodList(o.alerts, 1_000, RawAlertId, AlertTestOf(o)))
      && (s.Some? ==> Paired(o.alerts, s.value, CarriesAlert) && forall id :: Has(s.value, Boards.AlertKey, id) <==> Has(o.alerts, RawAlertId, id))
  {
    forall x { AlertExactly(metrics, o, x); }
    hide CheckAlert, GoodAlert, Section, GoodList, Paired, SortedBy, BoardSection, Has;
    SectionExactly(o.alerts, AlertCheck(metrics), Boards.AlertKey, RawAlertId, AlertTestOf(o), CarriesAlert);
    var s := BoardSection(o.alerts, AlertCheck(metrics), Boards.AlertKey);
    if s.Some? { SameIds(o.alerts, s.value, CarriesAlert, Boards.AlertKey, RawAlertId); }
  }

  /** What is shown, loaded as declared; nothing, if nothing is declared. */
  ghost predicate BoardsLoaded(r: RawScene, o: Boards.Observability) {
    && (forall id :: Has(o.dashboards, Boards.DashboardKey, id) <==> r.observability.Some? && Has(r.observability.value.dashboards, RawDashboardId, id))
    && (forall id :: Has(o.metrics, Boards.MetricKey, id) <==> r.observability.Some? && Has(r.observability.value.metrics, RawMetricId, id))
    && (forall id :: Has(o.alerts, Boards.AlertKey, id) <==> r.observability.Some? && Has(r.observability.value.alerts, RawAlertId, id))
  }

  lemma ObservedExactly(r: RawScene, things: seq<Thing>, places: seq<Place>, o: RawObservability)
    requires ThingsLoaded(r, things) && PlacesLoaded(r, places) && r.observability == Some(o)
    ensures var s := CheckObservability(things, places, o);
      (s.Some? <==> GoodBoards(r)) && (s.Some? ==> PairedBoards(Some(o), s) && BoardsLoaded(r, s.value))
  {
    hide BoardSection, GoodList, Paired, PlacesLoaded, ThingsLoaded, Has, DashboardTest, MetricTest, AlertTestOf, DashboardCheck, MetricCheck, AlertCheck;
    DashboardsExactly(r, things, o);
    var ds := BoardSection(o.dashboards, DashboardCheck(things), Boards.DashboardKey);
    if ds.Some? {
      MetricsExactly(r, things, places, ds.value, o);
      var ms := BoardSection(o.metrics, MetricCheck(things, places, ds.value), Boards.MetricKey);
      if ms.Some? { AlertsExactly(ms.value, o); }
    }
  }

  lemma BoardsExactly(r: RawScene, things: seq<Thing>, places: seq<Place>)
    requires ThingsLoaded(r, things) && PlacesLoaded(r, places)
    ensures var s := CheckBoards(r, things, places);
      (s.Some? <==> GoodBoards(r)) && (s.Some? ==> PairedBoards(r.observability, s.value) && BoardsLoaded(r, ShownBoards(s.value)))
  {
    if r.observability.Some? { ObservedExactly(r, things, places, r.observability.value); }
    hide CheckObservability, ThingsLoaded, PlacesLoaded;
  }

  // ---- Agents and milestones ----

  /** Everything agents and milestones may name, loaded as declared. */
  ghost predicate CatalogLoaded(r: RawScene, c: Catalog) {
    && WorldLoaded(r, c.things, c.places, c.links) && WorkLoaded(r, c.transforms, c.demand, c.pressure)
    && RulesLoaded(r, c.objectives, c.failures) && BoardsLoaded(r, c.boards)
  }

  lemma ScopeKnown(r: RawScene, c: Catalog, t: Agents.Target)
    requires CatalogLoaded(r, c)
    ensures InScope(c, t) <==> InScopeOf(r, t)
  {
    if t.AtPlace? { PlaceKnown(r, c.places, t.id); }
    hide Has, IsPlace, PlacesLoaded, ThingsLoaded;
  }

  lemma TargetKeys(a: Agents.Target, b: Agents.Target)
    ensures TargetKey(a) == TargetKey(b) <==> a == b
  {
    var x, y := TargetKey(a), TargetKey(b);
    if x == y {
      assert x[0] == y[0];
      assert x[2..] == a.id && y[2..] == b.id;
    }
  }

  /** A list of options none of which is missing, each once: what it holds. */
  lemma KnownOnce<T(!new)>(raws: seq<Option<T>>, check: Option<T> -> Option<T>, key: T -> string, ok: T -> bool)
    requires forall r :: check(r) == if r.Some? && ok(r.value) then r else None
    requires forall a, b :: key(a) == key(b) ==> a == b
    ensures Listed(raws, check, key).Some? <==> Once(raws) && forall r :: r in raws ==> r.Some? && ok(r.value)
    ensures Listed(raws, check, key).Some? ==> forall t :: t in Listed(raws, check, key).value <==> Some(t) in raws
  {
    var id := (r: Option<T>) => if r.Some? then key(r.value) else "";
    ListedExactly(raws, check, key, id);
    if forall r :: r in raws ==> check(r).Some? {
      assert forall i :: 0 <= i < |raws| ==> raws[i] in raws;
      assert DistinctBy(raws, id) <==> Once(raws);
    }
    if Listed(raws, check, key).Some? {
      ListedIs(raws, check, key);
      hide Listed;
      forall t ensures t in Listed(raws, check, key).value <==> Some(t) in raws {
        if Some(t) in raws { assert check(Some(t)).value in Listed(raws, check, key).value; }
      }
    }
  }

  function ScopeTest(c: Catalog): Agents.Target -> bool { t => InScope(c, t) }
  function AnyKind(): Agents.ActionKind -> bool { k => true }

  lemma ScopeExactly(r: RawScene, c: Catalog, scope: seq<Option<Agents.Target>>)
    requires CatalogLoaded(r, c)
    ensures var l := Listed(scope, ScopeCheck(c), TargetKey);
      && (l.Some? <==> Once(scope) && forall t :: t in scope ==> t.Some? && InScopeOf(r, t.value))
      && (l.Some? ==> forall t :: t in l.value <==> Some(t) in scope)
  {
    forall a, b ensures TargetKey(a) == TargetKey(b) ==> a == b { TargetKeys(a, b); }
    forall t ensures InScope(c, t) <==> InScopeOf(r, t) { ScopeKnown(r, c, t); }
    hide Listed, InScope, InScopeOf, TargetKey, CatalogLoaded, Once;
    KnownOnce(scope, ScopeCheck(c), TargetKey, ScopeTest(c));
  }

  lemma AllowedExactly(allowed: seq<Option<Agents.ActionKind>>)
    ensures var l := Listed(allowed, KnownAction, ActionKey);
      && (l.Some? <==> Once(allowed) && forall k :: k in allowed ==> k.Some?)
      && (l.Some? ==> forall k :: k in l.value <==> Some(k) in allowed)
  {
    hide Listed, Once;
    KnownOnce(allowed, KnownAction, ActionKey, AnyKind());
  }

  lemma WeightsExactly(r: RawScene, c: Catalog, weights: map<Id, Option<real>>)
    requires CatalogLoaded(r, c)
    ensures WeightsOk(c, weights)
      <==> forall id :: id in weights ==> Has(r.objectives, RawObjectiveId, id) && weights[id].Some? && 0.0 <= weights[id].value <= 1.0
    ensures WeightsOk(c, weights) ==> WeightsOf(weights).Keys == weights.Keys && forall id :: id in weights ==> weights[id] == Some(WeightsOf(weights)[id])
  {
    assert forall id :: Has(c.objectives, Goals.ObjectiveKey, id) <==> Has(r.objectives, RawObjectiveId, id);
    hide Has, CatalogLoaded;
  }

  lemma AgentExactly(r: RawScene, c: Catalog, x: RawAgent)
    requires CatalogLoaded(r, c)
    ensures var a := CheckAgent(c, x); (a.Some? <==> GoodAgent(r, x)) && (a.Some? ==> CarriesAgent(x, a.value) && a.value.id == x.id)
  {
    hide Listed, Once, InScopeOf, Has, CatalogLoaded, WeightsOk, WeightsOf, ValidId, NoneBlank;
    ScopeExactly(r, c, x.scope);
    AllowedExactly(x.allowed);
    WeightsExactly(r, c, x.weights);
  }

  lemma AgentsExactly(r: RawScene, c: Catalog)
    requires CatalogLoaded(r, c)
    ensures var s := Section(r.agents, AgentCheck(c), Agents.AgentKey);
      && (s.Some? <==> GoodList(r.agents, 100_000, RawAgentId, AgentTest(r)))
      && (s.Some? ==> Paired(r.agents, s.value, CarriesAgent) && forall id :: Has(s.value, Agents.AgentKey, id) <==> Has(r.agents, RawAgentId, id))
  {
    forall x { AgentExactly(r, c, x); }
    hide CheckAgent, GoodAgent, Section, GoodList, Paired, CatalogLoaded, SortedBy, BoardSection, Has;
    SectionExactly(r.agents, AgentCheck(c), Agents.AgentKey, RawAgentId, AgentTest(r), CarriesAgent);
    var s := Section(r.agents, AgentCheck(c), Agents.AgentKey);
    if s.Some? { SameIds(r.agents, s.value, CarriesAgent, Agents.AgentKey, RawAgentId); }
  }

  lemma VisibleKnown(r: RawScene, c: Catalog, agents: seq<Agents.Agent>, id: Id)
    requires CatalogLoaded(r, c) && forall id :: Has(agents, Agents.AgentKey, id) <==> Has(r.agents, RawAgentId, id)
    ensures Focusable(c, agents, id) <==> Visible(r, id)
  {
    PlaceKnown(r, c.places, id);
    assert HasThing(c.things, id) <==> IsThing(r, id);
    assert Has(c.demand, DemandKey, id) <==> IsDemand(r, id);
    hide Has, IsPlace, IsThing, IsDemand, HasThing, PlacesLoaded, ThingsLoaded, DemandLoaded;
  }

  lemma TriggerKnown(r: RawScene, c: Catalog, t: Milestones.Trigger)
    requires CatalogLoaded(r, c)
    ensures TriggerResolves(c, t) <==> GoodTrigger(r, t)
  {
    hide Has, PlacesLoaded, ThingsLoaded, DemandLoaded;
  }

  lemma FocusExactly(r: RawScene, c: Catalog, agents: seq<Agents.Agent>, ids: seq<Id>)
    requires CatalogLoaded(r, c) && forall id :: Has(agents, Agents.AgentKey, id) <==> Has(r.agents, RawAgentId, id)
    ensures DistinctBy(ids, Self) && AllFocusable(c, agents, ids) <==> Words(ids) && forall id :: id in ids ==> Visible(r, id)
  {
    forall id ensures Focusable(c, agents, id) <==> Visible(r, id) { VisibleKnown(r, c, agents, id); }
    hide Blank, DistinctBy, Focusable, Visible, CatalogLoaded, Has;
    assert forall i :: 0 <= i < |ids| ==> ids[i] in ids;
  }

  lemma MilestoneExactly(r: RawScene, c: Catalog, agents: seq<Agents.Agent>, x: RawMilestone)
    requires CatalogLoaded(r, c) && forall id :: Has(agents, Agents.AgentKey, id) <==> Has(r.agents, RawAgentId, id)
    ensures var m := CheckMilestone(c, agents, x); (m.Some? <==> GoodMilestone(r, x)) && (m.Some? ==> CarriesMilestone(x, m.value) && m.value.id == x.id)
  {
    hide Blank, DistinctBy, Words, AllFocusable, Focusable, Visible, CatalogLoaded, Has, ValidId, NoneBlank, TriggerResolves, GoodTrigger;
    if x.focus.Some? { FocusExactly(r, c, agents, x.focus.value); }
    if x.highlight.Some? { VisibleKnown(r, c, agents, x.highlight.value); }
    if x.trigger.Some? { TriggerKnown(r, c, x.trigger.value); }
  }

  lemma MilestonesExactly(r: RawScene, c: Catalog, agents: seq<Agents.Agent>)
    requires CatalogLoaded(r, c) && forall id :: Has(agents, Agents.AgentKey, id) <==> Has(r.agents, RawAgentId, id)
    ensures var s := Section(r.milestones, MilestoneCheck(c, agents), Milestones.MilestoneKey);
      (s.Some? <==> GoodList(r.milestones, 100_000, RawMilestoneId, MilestoneTest(r))) && (s.Some? ==> Paired(r.milestones, s.value, CarriesMilestone))
  {
    forall x { MilestoneExactly(r, c, agents, x); }
    hide CheckMilestone, GoodMilestone, CarriesMilestone, Section, GoodList, Paired, CatalogLoaded, SortedBy, BoardSection, Has;
    SectionExactly(r.milestones, MilestoneCheck(c, agents), Milestones.MilestoneKey, RawMilestoneId, MilestoneTest(r), CarriesMilestone);
  }

  lemma CastExactly(r: RawScene, c: Catalog)
    requires CatalogLoaded(r, c)
    ensures var w := CheckCast(r, c);
      (w.Some? <==> GoodCast(r)) && (w.Some? ==> Paired(r.agents, w.value.0, CarriesAgent) && Paired(r.milestones, w.value.1, CarriesMilestone))
  {
    hide Section, GoodList, Paired, CatalogLoaded, Has, AgentTest, MilestoneTest, AgentCheck, MilestoneCheck;
    AgentsExactly(r, c);
    var s := Section(r.agents, AgentCheck(c), Agents.AgentKey);
    if s.Some? { MilestonesExactly(r, c, s.value); }
  }

  // ---- The whole scene ----

  lemma FinishExactly(
    r: RawScene, things: seq<Thing>, places: seq<Place>, links: seq<Link>, transforms: seq<Transform>, demand: seq<Demand>, pressure: seq<Pressure>)
    requires WorldLoaded(r, things, places, links) && WorkLoaded(r, transforms, demand, pressure)
    ensures var s := FinishScene(r, things, places, links, transforms, demand, pressure);
      && (s.Some? <==> GoodRules(r) && GoodBoards(r) && GoodCast(r))
      && (s.Some? ==>
           && s.value.things == things && s.value.places == places && s.value.links == links
           && s.value.transforms == transforms && s.value.demand == demand && s.value.pressure == pressure
           && Paired(r.objectives, s.value.objectives, CarriesObjective) && Paired(r.failures, s.value.failures, CarriesFailure)
           && Paired(r.victories, s.value.victories, CarriesVictory) && PairedBoards(r.observability, s.value.observability)
           && Paired(r.agents, s.value.agents, CarriesAgent) && Paired(r.milestones, s.value.milestones, CarriesMilestone))
  {
    hide CheckRules, CheckBoards, CheckCast, GoodRules, GoodBoards, GoodCast, Paired, PairedBoards, PlacesLoaded, ThingsLoaded, DemandLoaded, RulesLoaded, BoardsLoaded, Has;
    RulesExactly(r, things, places, transforms, demand);
    BoardsExactly(r, things, places);
    var rules, boards := CheckRules(r, things, places, transforms, demand), CheckBoards(r, things, places);
    if rules.Some? && boards.Some? {
      var c := Catalog(things, places, links, transforms, demand, pressure, rules.value.objectives, rules.value.failures, ShownBoards(boards.value));
      assert CatalogLoaded(r, c);
      CastExactly(r, c);
    }
  }

  /**
   * The loader accepts a declaration exactly if it is acceptable, and the scene it then gives carries, entry for
   * entry, what each section declares.
   */
  lemma AcceptedExactly(r: RawScene)
    ensures Validate(r).Some? <==> Acceptable(r)
    ensures Validate(r).Some? ==> Carries(r, Validate(r).value)
  {
    hide CheckWorld, CheckWork, FinishScene, GoodWorld, GoodWork, GoodRules, GoodBoards, GoodCast, Paired, PairedBoards, PlacesLoaded, ThingsLoaded, WorkLoaded, Has;
    WorldExactly(r);
    if CheckWorld(r).Some? {
      var (things, places, links) := CheckWorld(r).value;
      assert WorldLoaded(r, things, places, links);
      hide WorldLoaded;
      WorkExactly(r, things, places, links);
      if CheckWork(r, things, places, links).Some? {
        var (transforms, demand, pressure) := CheckWork(r, things, places, links).value;
        FinishExactly(r, things, places, links, transforms, demand, pressure);
      }
    }
  }
}
