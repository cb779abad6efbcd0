/** The validated, immutable description of a scenario-language scene. */
module Sl1Scene {
  import opened Base
  import opened Order

  /** A (place, thing) storage slot, or a (place, bucket) capacity. */
  type Slot = (Id, Id)
  type Bucket = (Id, Id)

  const MAX_ITEMS: nat := 100_000
  const MAX_TICKS: nat := 1_000_000_000
  const MAX_AMOUNT: nat := 1_000_000_000
  const MAX_ATTEMPT_LIMIT: nat := 1_000
  /** More than all transforms of a scene can reserve together. */
  const ROOM: nat := MAX_ITEMS * MAX_AMOUNT

  /** What a thing promises of its quality; carried, and not evaluated by the engine. */
  datatype Contract = Contract(maxDrop: Option<real>, maxLate: Option<u64>, required: seq<Id>)
  datatype Thing = Thing(id: Id, tags: seq<Id>, budget: Option<u64>, contract: Option<Contract>)

  datatype StorageSlot = StorageSlot(capacity: u64, initial: u64)
  datatype Operating = UsedPercentGte(bucket: Id, threshold: nat) | OverloadedTicksGt(ticks: u64)
  datatype Place = Place(id: Id, capacity: map<Id, u64>, storage: map<Id, StorageSlot>, accepts: seq<Id>, produces: seq<Id>, states: map<Id, Operating>)

  datatype Direction = Forward | Bidirectional
  datatype Backpressure = BlockUpstream | DropLowPriority | SpillToBuffer | DegradeQuality
  datatype Link = Link(
    id: Id, from: Id, to: Id, direction: Direction, capacity: map<Id, u64>, travel: u64, compatibility: seq<Id>, queue: u64, backpressure: Backpressure)

  datatype Item = Item(name: Id, amount: u64)
  datatype Policy = RetryThenWarn | Drop
  datatype Transform = Transform(
    id: Id, runsOn: Id, inputs: seq<Item>, outputs: seq<Item>,
    cadence: u64, duration: u64, deadline: u64,
    cost: seq<Item>, policy: Policy, maxAttempts: u32)

  datatype Schedule = Fixed(every: pos64, start: u64) | Scripted(ticks: seq<u64>)
  datatype Demand = Demand(id: Id, place: Id, needs: seq<Id>, schedule: Schedule, deadline: u64)

  datatype PressureParams =
    | SourceMultiplier(thing: Id, milli: u64)
    | DemandGrowth(spawn: u32)
    | QuotaReduction(bucket: Id, percent: nat)
    | PathOutage
    | UnsupportedPressure(onThing: bool)
  datatype Pressure = Pressure(id: Id, atTick: u64, duration: u64, target: Id, params: PressureParams) {
    function EndTick(): u64 { SatAdd(atTick, duration) }
  }

  function TransformKey(t: Transform): string { t.id }
  function DemandKey(d: Demand): string { d.id }
  function PressureKey(p: Pressure): string { p.id }
  function PlaceKey(p: Place): string { p.id }
  function ThingKey(t: Thing): string { t.id }
  function LinkKey(l: Link): string { l.id }

  // ---- Amounts ----

  /** Units of `name` among the items; no name occurs twice. */
  function AmountOf(items: seq<Item>, name: Id): u64 {
    if items == [] then 0
    else if items[|items| - 1].name == name then items[|items| - 1].amount
    else AmountOf(items[..|items| - 1], name)
  }

  ghost predicate ItemsOk(items: seq<Item>) {
    && (forall i, j :: 0 <= i < j < |items| ==> items[i].name != items[j].name)
    && (forall i :: 0 <= i < |items| ==> 1 <= items[i].amount <= MAX_AMOUNT)
  }

  lemma {:induction false} AmountAt(items: seq<Item>, i: nat)
    requires ItemsOk(items) && i < |items|
    ensures AmountOf(items, items[i].name) == items[i].amount
  {
    if i < |items| - 1 {
      AmountAt(items[..|items| - 1], i);
    }
  }

  lemma {:induction false} AmountBounded(items: seq<Item>, name: Id)
    requires ItemsOk(items)
    ensures AmountOf(items, name) <= MAX_AMOUNT
    ensures AmountOf(items, name) > 0 <==> exists i :: 0 <= i < |items| && items[i].name == name
  {
    if items != [] && items[|items| - 1].name != name {
      var front := items[..|items| - 1];
      AmountBounded(front, name);
      if exists i :: 0 <= i < |items| && items[i].name == name {
        var i :| 0 <= i < |items| && items[i].name == name;
        assert front[i].name == name;
      }
    }
  }

  // ---- What the loader guarantees about a transform ----

  ghost predicate TransformOk(t: Transform) {
    && ItemsOk(t.inputs) && ItemsOk(t.outputs) && ItemsOk(t.cost)
    && 1 <= t.cadence <= MAX_TICKS
    && 1 <= t.duration <= t.deadline <= MAX_TICKS
    && 1 <= t.maxAttempts <= MAX_ATTEMPT_LIMIT
  }

  ghost predicate TransformsOk(ts: seq<Transform>) {
    && |ts| <= MAX_ITEMS
    && SortedBy(ts, TransformKey)
    && forall i :: 0 <= i < |ts| ==> TransformOk(ts[i])
  }
}
