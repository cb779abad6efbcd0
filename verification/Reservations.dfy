/** Stored reservations and stocks are functions of what is running and of what has happened. */
module Reservations {
  import opened Base
  import opened Order
  import opened Sl1Scene
  import opened Pressures
  import opened Plants

  /** A quantity a transform holds while it runs. */
  datatype Gauge = CapacityOf(bucket: Bucket) | OutputTo(slot: Slot)

  function Weigh(g: Gauge, t: Transform): nat {
    match g
    case CapacityOf(b) => if t.runsOn == b.0 then AmountOf(t.cost, b.1) else 0
    case OutputTo(s) => if t.runsOn == s.0 then AmountOf(t.outputs, s.1) else 0
  }

  predicate IsRunning(states: map<Id, TState>, id: Id) {
    id in states && states[id].Running?
  }

  function RunningSum(ts: seq<Transform>, states: map<Id, TState>, g: Gauge): nat {
    if ts == [] then 0
    else
      var t := ts[|ts| - 1];
      RunningSum(ts[..|ts| - 1], states, g) + if IsRunning(states, t.id) then Weigh(g, t) else 0
  }

  lemma WeighBounded(g: Gauge, t: Transform)
    requires TransformOk(t)
    ensures Weigh(g, t) <= MAX_AMOUNT
  {
    match g {
      case CapacityOf(b) => AmountBounded(t.cost, b.1);
      case OutputTo(s) => AmountBounded(t.outputs, s.1);
    }
  }

  lemma {:induction false} RunningSumBounded(ts: seq<Transform>, states: map<Id, TState>, g: Gauge)
    requires forall i :: 0 <= i < |ts| ==> TransformOk(ts[i])
    ensures RunningSum(ts, states, g) <= |ts| * MAX_AMOUNT
  {
    if ts != [] {
      RunningSumBounded(ts[..|ts| - 1], states, g);
      WeighBounded(g, ts[|ts| - 1]);
    }
  }

  /** What all transforms together hold when all of them run. */
  function TotalSum(ts: seq<Transform>, g: Gauge): nat {
    if ts == [] then 0 else TotalSum(ts[..|ts| - 1], g) + Weigh(g, ts[|ts| - 1])
  }

  lemma {:induction false} RunningWithinTotal(ts: seq<Transform>, states: map<Id, TState>, g: Gauge)
    ensures RunningSum(ts, states, g) <= TotalSum(ts, g)
  {
    if ts != [] { RunningWithinTotal(ts[..|ts| - 1], states, g); }
  }

  /** Each transform's part is within the total. */
  lemma {:induction false} TotalHolds(ts: seq<Transform>, g: Gauge, k: nat)
    requires k < |ts|
    ensures Weigh(g, ts[k]) <= TotalSum(ts, g)
  {
    if k < |ts| - 1 { TotalHolds(ts[..|ts| - 1], g, k); }
  }

  lemma {:induction false} RunningSumElse(ts: seq<Transform>, states: map<Id, TState>, g: Gauge, id: Id, st: TState)
    requires forall i :: 0 <= i < |ts| ==> ts[i].id != id
    ensures RunningSum(ts, states[id := st], g) == RunningSum(ts, states, g)
  {
    if ts != [] { RunningSumElse(ts[..|ts| - 1], states, g, id, st); }
  }

  /** Changing the state of one transform changes the sum by what that one holds. */
  lemma {:induction false} RunningSumAt(ts: seq<Transform>, states: map<Id, TState>, g: Gauge, k: nat, st: TState)
    requires SortedBy(ts, TransformKey) && k < |ts|
    ensures RunningSum(ts, states[ts[k].id := st], g) + (if IsRunning(states, ts[k].id) then Weigh(g, ts[k]) else 0)
         == RunningSum(ts, states, g) + (if st.Running? then Weigh(g, ts[k]) else 0)
  {
    var front, last := ts[..|ts| - 1], |ts| - 1;
    if k < last {
      RunningSumAt(front, states, g, k, st);
      LessAsymmetric(ts[k].id, ts[last].id);
    } else {
      forall i | 0 <= i < last ensures front[i].id != ts[k].id {
        LessAsymmetric(ts[i].id, ts[k].id);
      }
      RunningSumElse(front, states, g, ts[k].id, st);
    }
  }

  /** A move that takes resources starts a run, and one that returns them ends it. */
  ghost predicate Legal(def: Transform, caps: Caps, quota: map<Bucket, nat>, p: Plant, m: Move) {
    Turns(p.states, def.id, m) && (m.effect.Take? ==> TryResult(def, caps, quota, p) == Started)
  }

  lemma MovesLegal(def: Transform, caps: Caps, quota: map<Bucket, nat>, p: Plant, now: u64)
    ensures Legal(def, caps, quota, p, AdvanceMove(def, caps, quota, p, now))
    ensures Legal(def, caps, quota, p, TriggerMove(def, caps, quota, p, now))
  {
  }

  // ---- Reservations ----

  /** `place_capacity_used` and `pending_outputs` are exactly what the running transforms hold. */
  ghost predicate ReservedExactly(ts: seq<Transform>, p: Plant) {
    && (forall b :: Get(p.used, b) == RunningSum(ts, p.states, CapacityOf(b)))
    && (forall s :: Get(p.pend, s) == RunningSum(ts, p.states, OutputTo(s)))
  }

  /** The way a move changes whether the transform holds its reservations. */
  ghost predicate Turns(states: map<Id, TState>, id: Id, m: Move) {
    match m.effect
    case Nothing => IsRunning(states, id) == m.next.Running?
    case Take => !IsRunning(states, id) && m.next.Running?
    case _ => IsRunning(states, id) && !m.next.Running?
  }

  lemma ReservedStep(ts: seq<Transform>, k: nat, states: map<Id, TState>, m: Move, g: Gauge)
    requires TransformsOk(ts) && k < |ts| && Turns(states, ts[k].id, m)
    ensures var now := RunningSum(ts, states[ts[k].id := m.next], g);
      && now <= ROOM
      && now == match m.effect
         case Nothing => RunningSum(ts, states, g)
         case Take => RunningSum(ts, states, g) + Weigh(g, ts[k])
         case _ => RunningSum(ts, states, g) - Weigh(g, ts[k])
  {
    RunningSumAt(ts, states, g, k, m.next);
    RunningSumBounded(ts, states[ts[k].id := m.next], g);
  }

  lemma StepUsed(ts: seq<Transform>, k: nat, p: Plant, m: Move, now: u64, b: Bucket)
    requires TransformsOk(ts) && k < |ts| && Turns(p.states, ts[k].id, m)
    requires Get(p.used, b) == RunningSum(ts, p.states, CapacityOf(b))
    ensures var p' := Step(ts[k], p, m, now); Get(p'.used, b) == RunningSum(ts, p'.states, CapacityOf(b))
  {
    ReservedStep(ts, k, p.states, m, CapacityOf(b));
    AdjustedAt(p.used, ts[k].runsOn, ts[k].cost, if m.effect.Take? then Plus else Free, b);
  }

  lemma StepPend(ts: seq<Transform>, k: nat, p: Plant, m: Move, now: u64, s: Slot)
    requires TransformsOk(ts) && k < |ts| && Turns(p.states, ts[k].id, m)
    requires Get(p.pend, s) == RunningSum(ts, p.states, OutputTo(s))
    ensures var p' := Step(ts[k], p, m, now); Get(p'.pend, s) == RunningSum(ts, p'.states, OutputTo(s)) <= ROOM
  {
    ReservedStep(ts, k, p.states, m, OutputTo(s));
    AdjustedAt(p.pend, ts[k].runsOn, ts[k].outputs, if m.effect.Take? then Plus else FreeDrop, s);
  }

  lemma StepReserved(ts: seq<Transform>, k: nat, p: Plant, m: Move, now: u64)
    requires TransformsOk(ts) && k < |ts| && ReservedExactly(ts, p) && Turns(p.states, ts[k].id, m)
    ensures ReservedExactly(ts, Step(ts[k], p, m, now))
  {
    var p' := Step(ts[k], p, m, now);
    forall b ensures Get(p'.used, b) == RunningSum(ts, p'.states, CapacityOf(b)) {
      StepUsed(ts, k, p, m, now, b);
    }
    forall s ensures Get(p'.pend, s) == RunningSum(ts, p'.states, OutputTo(s)) {
      StepPend(ts, k, p, m, now, s);
    }
  }

  // ---- Limits ----

  /** Slots that pressure may inject into can be overfull by what was still to be delivered. */
  function Slack(ts: seq<Transform>, caps: Caps, sources: set<Slot>, s: Slot): nat {
    if s in sources then Min(Get(caps.storage, s), TotalSum(ts, OutputTo(s))) else 0
  }

  ghost predicate WithinLimits(ts: seq<Transform>, caps: Caps, sources: set<Slot>, p: Plant) {
    && (forall b :: Get(p.used, b) <= Get(caps.base, b))
    && (forall s :: SlotWithin(ts, caps, sources, p, s))
  }

  /**
   * A capacity that keeps 64-bit sums exact when at most `most` units can be on their way into the slot: any at all
   * if nothing is delivered there; else below the top of the range, and where pressure injects, leaving room above
   * for what was on its way.
   */
  predicate RoomFits(cap: u64, source: bool, most: nat) {
    most == 0 || if source then cap + Min(cap, most) <= U64_MAX else cap < U64_MAX
  }

  ghost predicate CapsFit(ts: seq<Transform>, caps: Caps, sources: set<Slot>) {
    forall s :: s in caps.storage ==> RoomFits(caps.storage[s], s in sources, TotalSum(ts, OutputTo(s)))
  }

  /** What a successful attempt to start says about each bucket and slot. */
  lemma StartedFits(def: Transform, caps: Caps, quota: map<Bucket, nat>, p: Plant)
    requires TransformOk(def) && TryResult(def, caps, quota, p) == Started
    ensures forall b :: Weigh(CapacityOf(b), def) > 0 ==>
              SatAdd(Get(p.used, b), Weigh(CapacityOf(b), def)) <= Get(caps.base, b)
    ensures forall s :: Weigh(OutputTo(s), def) > 0 ==>
              SatAdd(SatAdd(Get(p.inv, s), Get(p.pend, s)), Weigh(OutputTo(s), def)) <= Get(caps.storage, s)
    ensures forall s: Slot :: s.0 == def.runsOn ==> AmountOf(def.inputs, s.1) <= Get(p.inv, s)
  {
    forall b | Weigh(CapacityOf(b), def) > 0
      ensures SatAdd(Get(p.used, b), Weigh(CapacityOf(b), def)) <= Get(caps.base, b)
    {
      AmountBounded(def.cost, b.1);
      var i :| 0 <= i < |def.cost| && def.cost[i].name == b.1;
      AmountAt(def.cost, i);
      assert b == (def.runsOn, def.cost[i].name);
      CapacityAntitone(map[], quota, b, Get(caps.base, b));
    }
    forall s | Weigh(OutputTo(s), def) > 0
      ensures SatAdd(SatAdd(Get(p.inv, s), Get(p.pend, s)), Weigh(OutputTo(s), def)) <= Get(caps.storage, s)
    {
      AmountBounded(def.outputs, s.1);
      var i :| 0 <= i < |def.outputs| && def.outputs[i].name == s.1;
      AmountAt(def.outputs, i);
      assert s == (def.runsOn, def.outputs[i].name);
    }
    forall s: Slot | s.0 == def.runsOn ensures AmountOf(def.inputs, s.1) <= Get(p.inv, s) {
      AmountBounded(def.inputs, s.1);
      if AmountOf(def.inputs, s.1) > 0 {
        var i :| 0 <= i < |def.inputs| && def.inputs[i].name == s.1;
        AmountAt(def.inputs, i);
        assert s == (def.runsOn, def.inputs[i].name);
      }
    }
  }

  /** How one move changes what is in a slot. */
  function StockChange(def: Transform, m: Move, s: Slot): int {
    if s.0 != def.runsOn then 0
    else match m.effect
      case Take => var taken: int := AmountOf(def.inputs, s.1); -taken
      case Deliver => AmountOf(def.outputs, s.1)
      case _ => 0
  }

  ghost predicate SlotWithin(ts: seq<Transform>, caps: Caps, sources: set<Slot>, p: Plant, s: Slot) {
    && Get(p.pend, s) <= Get(caps.storage, s)
    && Get(p.inv, s) + Get(p.pend, s) <= Get(caps.storage, s) + Slack(ts, caps, sources, s)
  }

  /** In one slot no subtraction truncates and no addition saturates. */
  lemma SlotExact(ts: seq<Transform>, k: nat, caps: Caps, sources: set<Slot>, p: Plant, m: Move, s: Slot, now: u64)
    requires TransformsOk(ts) && k < |ts| && CapsFit(ts, caps, sources) && Turns(p.states, ts[k].id, m)
    requires Get(p.pend, s) == RunningSum(ts, p.states, OutputTo(s)) && SlotWithin(ts, caps, sources, p, s)
    requires m.effect.Take? && s.0 == ts[k].runsOn ==> AmountOf(ts[k].inputs, s.1) <= Get(p.inv, s)
    requires m.effect.Take? && Weigh(OutputTo(s), ts[k]) > 0 ==>
               SatAdd(SatAdd(Get(p.inv, s), Get(p.pend, s)), Weigh(OutputTo(s), ts[k])) <= Get(caps.storage, s)
    ensures var p' := Step(ts[k], p, m, now);
      SlotWithin(ts, caps, sources, p', s) && Get(p'.inv, s) == Get(p.inv, s) + StockChange(ts[k], m, s)
  {
    var def := ts[k];
    ReservedStep(ts, k, p.states, m, OutputTo(s));
    StepPend(ts, k, p, m, now, s);
    TotalHolds(ts, OutputTo(s), k);
    if m.effect.Take? {
      AdjustedAt(p.inv, def.runsOn, def.inputs, Minus, s);
    } else if m.effect.Deliver? {
      AdjustedAt(p.inv, def.runsOn, def.outputs, Plus, s);
    }
    RunningWithinTotal(ts, p.states, OutputTo(s));
    hide RunningSum, TotalSum, TransformsOk, Step, AmountOf;
  }

  /** One move keeps every limit, and moves stock by exact amounts. */
  lemma StepExact(ts: seq<Transform>, k: nat, caps: Caps, sources: set<Slot>, quota: map<Bucket, nat>, p: Plant, m: Move, now: u64)
    requires TransformsOk(ts) && k < |ts| && ReservedExactly(ts, p) && WithinLimits(ts, caps, sources, p) && CapsFit(ts, caps, sources)
    requires Legal(ts[k], caps, quota, p, m)
    ensures var p' := Step(ts[k], p, m, now);
      && WithinLimits(ts, caps, sources, p')
      && forall s :: Get(p'.inv, s) == Get(p.inv, s) + StockChange(ts[k], m, s)
  {
    var def := ts[k];
    var p' := Step(def, p, m, now);
    if m.effect.Take? { StartedFits(def, caps, quota, p); }
    forall b ensures Get(p'.used, b) <= Get(caps.base, b) {
      AdjustedAt(p.used, def.runsOn, def.cost, if m.effect.Take? then Plus else Free, b);
    }
    forall s ensures SlotWithin(ts, caps, sources, p', s) && Get(p'.inv, s) == Get(p.inv, s) + StockChange(def, m, s) {
      SlotExact(ts, k, caps, sources, p, m, s, now);
    }
  }
}
