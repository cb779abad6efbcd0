/** Inventories, reservations and the transform state machines: one tick, as functions. */
module Plants {
  import opened Base
  import opened Order
  import opened Sl1Scene
  import opened Pressures

  datatype Freshness = NoData | Ok(lastSet: u64) | Stale(lastSet: u64) | Degraded | Invalid

  datatype TState =
    | Idle
    | Running(scheduledAt: u64, startedAt: u64, attempt: u32)
    | Starved(scheduledAt: u64, since: u64, attempts: u32)
    | Blocked(scheduledAt: u64, since: u64, attempts: u32)
    | Late(scheduledAt: u64, attempt: u32, since: u64)

  datatype WarningKind = StarvedWarning | BlockedWarning | SlotMissed | LateWarning | FailedWarning
  datatype Warning = Warning(kind: WarningKind, attempt: Option<u32>)

  /** What a transition does to inventories and reservations. */
  datatype Effect = Nothing | Take | Deliver | GiveBack

  datatype Move = Move(next: TState, effect: Effect, warnings: seq<Warning>)
  datatype Logged = Logged(def: Transform, tick: u64, move: Move)

  datatype Caps = Caps(storage: map<Slot, u64>, base: map<Bucket, u64>)

  datatype Plant = Plant(
    inv: map<Slot, u64>, stamps: map<Slot, Freshness>,
    used: map<Bucket, u64>, pend: map<Slot, u64>,
    states: map<Id, TState>,
    history: seq<Logged>)

  // ---- Folding items into a map of amounts ----

  datatype Op = Plus | Minus | Free | FreeDrop

  function Adjust(m: map<(Id, Id), u64>, key: (Id, Id), v: u64, op: Op): map<(Id, Id), u64> {
    match op
    case Plus => m[key := SatAdd(Get(m, key), v)]
    case Minus => m[key := SatSub(Get(m, key), v)]
    case Free => if key in m then m[key := SatSub(m[key], v)] else m
    case FreeDrop =>
      if key !in m then m
      else if SatSub(m[key], v) == 0 then m - {key}
      else m[key := SatSub(m[key], v)]
  }

  function AdjustAll(m: map<(Id, Id), u64>, place: Id, items: seq<Item>, op: Op): map<(Id, Id), u64> {
    if items == [] then m
    else
      var last := items[|items| - 1];
      Adjust(AdjustAll(m, place, items[..|items| - 1], op), (place, last.name), last.amount, op)
  }

  lemma {:induction false} AdjustedAt(m: map<(Id, Id), u64>, place: Id, items: seq<Item>, op: Op, key: (Id, Id))
    requires ItemsOk(items)
    ensures Get(AdjustAll(m, place, items, op), key) ==
      var v := if key.0 == place then AmountOf(items, key.1) else 0;
      if op.Plus? then SatAdd(Get(m, key), v) else SatSub(Get(m, key), v)
    ensures key !in m && (forall i :: 0 <= i < |items| ==> key != (place, items[i].name)) ==> key !in AdjustAll(m, place, items, op)
    ensures key in m && !op.FreeDrop? ==> key in AdjustAll(m, place, items, op)
    ensures (op.Free? || op.FreeDrop?) && key !in m ==> key !in AdjustAll(m, place, items, op)
  {
    if items != [] {
      var front, last := items[..|items| - 1], items[|items| - 1];
      AdjustedAt(m, place, front, op, key);
      if key == (place, last.name) {
        AmountBounded(front, last.name);
      }
    }
  }

  function Stamp(f: map<Slot, Freshness>, place: Id, items: seq<Item>, now: u64): map<Slot, Freshness> {
    if items == [] then f
    else Stamp(f, place, items[..|items| - 1], now)[(place, items[|items| - 1].name) := Ok(now)]
  }

  lemma {:induction false} StampedAt(f: map<Slot, Freshness>, place: Id, items: seq<Item>, now: u64, key: Slot)
    requires ItemsOk(items)
    ensures var r := Stamp(f, place, items, now);
      if key.0 == place && AmountOf(items, key.1) > 0 then key in r && r[key] == Ok(now)
      else (key in r <==> key in f) && (key in f ==> r[key] == f[key])
  {
    if items != [] {
      StampedAt(f, place, items[..|items| - 1], now, key);
    }
  }

  // ---- One attempt to start ----

  datatype StartResult = Started | CannotFeed | CannotFit

  ghost predicate InputsAvailable(def: Transform, p: Plant) {
    forall i :: 0 <= i < |def.inputs| ==> Get(p.inv, (def.runsOn, def.inputs[i].name)) >= def.inputs[i].amount
  }

  ghost predicate CapacityFits(def: Transform, caps: Caps, quota: map<Bucket, nat>, p: Plant) {
    forall i :: 0 <= i < |def.cost| ==>
      var b := (def.runsOn, def.cost[i].name);
      SatAdd(Get(p.used, b), def.cost[i].amount) <= EffectiveCapacity(quota, b, Get(caps.base, b))
  }

  ghost predicate OutputsFit(def: Transform, caps: Caps, p: Plant) {
    forall i :: 0 <= i < |def.outputs| ==>
      var s := (def.runsOn, def.outputs[i].name);
      SatAdd(SatAdd(Get(p.inv, s), Get(p.pend, s)), def.outputs[i].amount) <= Get(caps.storage, s)
  }

  ghost function TryResult(def: Transform, caps: Caps, quota: map<Bucket, nat>, p: Plant): StartResult {
    if !InputsAvailable(def, p) then CannotFeed
    else if CapacityFits(def, caps, quota, p) && OutputsFit(def, caps, p) then Started
    else CannotFit
  }

  function Affect(def: Transform, effect: Effect, p: Plant, now: u64): Plant {
    match effect
    case Nothing => p
    case Take =>
      p.(inv := AdjustAll(p.inv, def.runsOn, def.inputs, Minus),
         used := AdjustAll(p.used, def.runsOn, def.cost, Plus),
         pend := AdjustAll(p.pend, def.runsOn, def.outputs, Plus))
    case Deliver =>
      p.(inv := AdjustAll(p.inv, def.runsOn, def.outputs, Plus),
         stamps := Stamp(p.stamps, def.runsOn, def.outputs, now),
         used := AdjustAll(p.used, def.runsOn, def.cost, Free),
         pend := AdjustAll(p.pend, def.runsOn, def.outputs, FreeDrop))
    case GiveBack =>
      p.(used := AdjustAll(p.used, def.runsOn, def.cost, Free),
         pend := AdjustAll(p.pend, def.runsOn, def.outputs, FreeDrop))
  }

  // ---- The state machine of one transform, given how an attempt to start would go ----

  /** What becomes of an attempt that missed its deadline. */
  function AfterFailure(def: Transform, scheduledAt: u64, attempt: u32, now: u64): (TState, seq<Warning>) {
    if def.policy.Drop? || attempt >= def.maxAttempts then (Idle, [Warning(FailedWarning, Some(attempt))])
    else (Late(scheduledAt, NextU32(attempt), now), [])
  }

  function NextU32(x: u32): u32 { if x + 1 < U32_RANGE then x + 1 else x }

  function AdvanceWaiting(def: Transform, st: TState, r: StartResult, now: u64): Move
    requires st.Starved? || st.Blocked?
  {
    if now > SatAdd(st.scheduledAt, def.deadline) then
      var (next, failed) := AfterFailure(def, st.scheduledAt, st.attempts, now);
      Move(next, Nothing, [Warning(LateWarning, Some(st.attempts))] + failed)
    else match r
      case Started => Move(Running(st.scheduledAt, now, st.attempts), Take, [])
      case CannotFeed => Move(Starved(st.scheduledAt, st.since, st.attempts), Nothing, [])
      case CannotFit => Move(Blocked(st.scheduledAt, st.since, st.attempts), Nothing, [])
  }

  /** Step 1 of a tick: the instance in flight, if any, moves on. */
  function Advance(def: Transform, st: TState, r: StartResult, now: u64): Move {
    match st
    case Idle => Move(Idle, Nothing, [])
    case Running(scheduledAt, startedAt, attempt) =>
      if now > SatAdd(scheduledAt, def.deadline) then
        var (next, failed) := AfterFailure(def, scheduledAt, attempt, now);
        Move(next, GiveBack, [Warning(LateWarning, Some(attempt))] + failed)
      else if now >= SatAdd(startedAt, def.duration) then Move(Idle, Deliver, [])
      else Move(st, Nothing, [])
    case Late(scheduledAt, attempt, since) =>
      if def.policy.Drop? then Move(Idle, Nothing, [Warning(FailedWarning, Some(attempt))])
      else if r.Started? then Move(Running(now, now, attempt), Take, [])
      else if NextU32(attempt) > def.maxAttempts then Move(Idle, Nothing, [Warning(FailedWarning, Some(attempt))])
      else Move(Late(scheduledAt, NextU32(attempt), since), Nothing, [])
    case _ => AdvanceWaiting(def, st, r, now)
  }

  predicate CadenceFires(def: Transform, now: u64) {
    now > 0 && def.cadence > 0 && now % def.cadence == 0
  }

  /** Step 2: a cadence slot opens an instance, or is missed. */
  function Trigger(def: Transform, st: TState, r: StartResult, now: u64): Move {
    if !CadenceFires(def, now) then Move(st, Nothing, [])
    else if !st.Idle? then Move(st, Nothing, [Warning(SlotMissed, None)])
    else match r
      case Started => Move(Running(now, now, 1), Take, [])
      case CannotFeed => Move(Starved(now, now, 1), Nothing, [Warning(StarvedWarning, None)])
      case CannotFit => Move(Blocked(now, now, 1), Nothing, [Warning(BlockedWarning, None)])
  }

  function StateOf(p: Plant, id: Id): TState {
    if id in p.states then p.states[id] else Idle
  }

  function Step(def: Transform, p: Plant, m: Move, now: u64): Plant {
    var p' := Affect(def, m.effect, p, now);
    p'.(states := p.states[def.id := m.next], history := p.history + [Logged(def, now, m)])
  }

  ghost function AdvanceMove(def: Transform, caps: Caps, quota: map<Bucket, nat>, p: Plant, now: u64): Move {
    Advance(def, StateOf(p, def.id), TryResult(def, caps, quota, p), now)
  }

  ghost function TriggerMove(def: Transform, caps: Caps, quota: map<Bucket, nat>, p: Plant, now: u64): Move {
    Trigger(def, StateOf(p, def.id), TryResult(def, caps, quota, p), now)
  }

  ghost function ProcessOne(def: Transform, caps: Caps, quota: map<Bucket, nat>, p: Plant, now: u64): Plant {
    var p1 := Step(def, p, AdvanceMove(def, caps, quota, p, now), now);
    Step(def, p1, TriggerMove(def, caps, quota, p1, now), now)
  }

  /** The first k transforms, in id order. */
  ghost function ProcessFirst(ts: seq<Transform>, k: nat, caps: Caps, quota: map<Bucket, nat>, p: Plant, now: u64): Plant
    requires k <= |ts|
  {
    if k == 0 then p
    else ProcessOne(ts[k - 1], caps, quota, ProcessFirst(ts, k - 1, caps, quota, p, now), now)
  }

  // ---- Ageing and injection, which come before the transforms ----

  function Aged(f: Freshness, budget: Option<u64>, now: u64): Freshness {
    if budget.Some? && f.Ok? && SatSub(now, f.lastSet) > budget.value then Stale(f.lastSet) else f
  }

  function Budget(budgets: map<Id, Option<u64>>, thing: Id): Option<u64> {
    if thing in budgets then budgets[thing] else None
  }

  function Age(f: map<Slot, Freshness>, budgets: map<Id, Option<u64>>, now: u64): map<Slot, Freshness> {
    map s | s in f :: Aged(f[s], Budget(budgets, s.1), now)
  }

  /** As much of a request as there is room for; inventory alone is looked at, not what is still to be delivered. */
  function Injected(inv: map<Slot, u64>, caps: map<Slot, u64>, r: Request): u64 {
    Min(r.whole, SatSub(Get(caps, r.slot), Get(inv, r.slot)))
  }

  function Inject(inv: map<Slot, u64>, caps: map<Slot, u64>, r: Request): map<Slot, u64> {
    inv[r.slot := SatAdd(Get(inv, r.slot), Injected(inv, caps, r))]
  }

  function InjectAll(inv: map<Slot, u64>, caps: map<Slot, u64>, rs: seq<Request>): map<Slot, u64> {
    if rs == [] then inv
    else Inject(InjectAll(inv, caps, rs[..|rs| - 1]), caps, rs[|rs| - 1])
  }

  /** What one tick of pressure hands to the plant. */
  datatype Weather = Weather(quota: map<Bucket, nat>, requests: seq<Request>)

  datatype Layout = Layout(ts: seq<Transform>, caps: Caps, budgets: map<Id, Option<u64>>, initial: map<Slot, u64>)

  ghost function PlantTick(lay: Layout, p: Plant, w: Weather, now: u64): Plant {
    var p1 := p.(inv := InjectAll(p.inv, lay.caps.storage, w.requests));
    var p2 := p1.(stamps := Age(p1.stamps, lay.budgets, now));
    ProcessFirst(lay.ts, |lay.ts|, lay.caps, w.quota, p2, now)
  }

  function Opening(lay: Layout): Plant {
    Plant(lay.initial,
          map s | s in lay.initial :: (if lay.initial[s] > 0 then Ok(0) else NoData),
          map b | b in lay.caps.base :: 0, map[],
          map t | t in lay.ts :: t.id := Idle,
          [])
  }
}
