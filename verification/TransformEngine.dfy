/** The transform scheduler as the engine runs it, in place, against the one-tick functions of Plants. */
module TransformEngine {
  import opened Base
  import opened Order
  import opened Sl1Scene
  import opened Pressures
  import opened Plants
  import opened Sl1State

  /** Freshness ageing: every entry that has outlived its thing's budget turns stale. */
  method AgeFreshness(s: Scene, rt: Sl1RuntimeState, now: u64)
    modifies rt`freshness
    ensures rt.freshness == Age(old(rt.freshness), LayoutOf(s).budgets, now)
  {
    var budgets := ThingBudgets(s.things);
    var rest := rt.freshness.Keys;
    while rest != {}
      invariant rest <= rt.freshness.Keys == old(rt.freshness).Keys
      invariant forall slot :: slot in rt.freshness ==>
        (rt.freshness[slot] == if slot in rest then old(rt.freshness)[slot] else Aged(old(rt.freshness)[slot], Budget(budgets, slot.1), now))
      decreases rest
    {
      var slot :| slot in rest;
      rest := rest - {slot};
      var budget := Budget(budgets, slot.1);
      if budget.Some? && rt.freshness[slot].Ok? {
        var lastSet := rt.freshness[slot].lastSet;
        if SatSub(now, lastSet) > budget.value {
          rt.freshness := rt.freshness[slot := Stale(lastSet)];
        }
      }
    }
  }

  method ThingBudgets(things: seq<Thing>) returns (budgets: map<Id, Option<u64>>)
    ensures budgets == BudgetFirst(things, |things|)
  {
    budgets := map[];
    for i := 0 to |things|
      invariant budgets == BudgetFirst(things, i)
    {
      budgets := budgets[things[i].id := things[i].budget];
    }
  }

  method PlaceCaps(places: seq<Place>) returns (caps: Caps)
    ensures caps == CapsOf(places)
  {
    hide CapacitiesOf, BucketsOf;
    var storage: map<Slot, u64>, base: map<Bucket, u64> := map[], map[];
    for i := 0 to |places|
      invariant storage == StorageFirst(places, i) && base == BaseFirst(places, i)
    {
      storage := storage + CapacitiesOf(places[i]);
      base := base + BucketsOf(places[i]);
    }
    caps := Caps(storage, base);
  }

  // ---- One attempt to start ----

  method Probe(def: Transform, rt: Sl1RuntimeState, caps: Caps) returns (r: StartResult)
    ensures r == TryResult(def, caps, rt.pressure.quota, rt.PlantView())
  {
    for i := 0 to |def.inputs|
      invariant forall j :: 0 <= j < i ==> Get(rt.inventories, (def.runsOn, def.inputs[j].name)) >= def.inputs[j].amount
    {
      if Get(rt.inventories, (def.runsOn, def.inputs[i].name)) < def.inputs[i].amount { return CannotFeed; }
    }
    for i := 0 to |def.cost|
      invariant forall j :: 0 <= j < i ==>
        var b := (def.runsOn, def.cost[j].name);
        SatAdd(Get(rt.placeCapacityUsed, b), def.cost[j].amount) <= EffectiveCapacity(rt.pressure.quota, b, Get(caps.base, b))
    {
      var b := (def.runsOn, def.cost[i].name);
      var cap := EffectiveCapacity(rt.pressure.quota, b, Get(caps.base, b));
      if SatAdd(Get(rt.placeCapacityUsed, b), def.cost[i].amount) > cap { return CannotFit; }
    }
    for i := 0 to |def.outputs|
      invariant forall j :: 0 <= j < i ==>
        var s := (def.runsOn, def.outputs[j].name);
        SatAdd(SatAdd(Get(rt.inventories, s), Get(rt.pendingOutputs, s)), def.outputs[j].amount) <= Get(caps.storage, s)
    {
      var s := (def.runsOn, def.outputs[i].name);
      if SatAdd(SatAdd(Get(rt.inventories, s), Get(rt.pendingOutputs, s)), def.outputs[i].amount) > Get(caps.storage, s) {
        return CannotFit;
      }
    }
    return Started;
  }

  /** All checks come before the first write, so a refused attempt leaves no trace. */
  method TryStart(def: Transform, rt: Sl1RuntimeState, caps: Caps, now: u64) returns (r: StartResult)
    modifies rt`inventories, rt`placeCapacityUsed, rt`pendingOutputs
    ensures r == TryResult(def, caps, rt.pressure.quota, old(rt.PlantView()))
    ensures rt.PlantView() == Affect(def, if r.Started? then Take else Nothing, old(rt.PlantView()), now)
  {
    hide TryResult, Adjust, AdjustAll;
    r := Probe(def, rt, caps);
    if !r.Started? { return; }
    var place := def.runsOn;
    AdjustNone(rt.inventories, place, def.inputs, Minus);
    AdjustNone(rt.placeCapacityUsed, place, def.cost, Plus);
    AdjustNone(rt.pendingOutputs, place, def.outputs, Plus);
    for i := 0 to |def.inputs|
      invariant rt.inventories == AdjustAll(old(rt.inventories), place, def.inputs[..i], Minus)
      invariant unchanged(rt`placeCapacityUsed) && unchanged(rt`pendingOutputs)
    {
      AdjustGrows(old(rt.inventories), place, def.inputs, i, Minus);
      rt.inventories := Adjust(rt.inventories, (place, def.inputs[i].name), def.inputs[i].amount, Minus);
    }
    for i := 0 to |def.cost|
      invariant rt.inventories == AdjustAll(old(rt.inventories), place, def.inputs, Minus)
      invariant rt.placeCapacityUsed == AdjustAll(old(rt.placeCapacityUsed), place, def.cost[..i], Plus)
      invariant unchanged(rt`pendingOutputs)
    {
      AdjustGrows(old(rt.placeCapacityUsed), place, def.cost, i, Plus);
      rt.placeCapacityUsed := Adjust(rt.placeCapacityUsed, (place, def.cost[i].name), def.cost[i].amount, Plus);
    }
    for i := 0 to |def.outputs|
      invariant rt.inventories == AdjustAll(old(rt.inventories), place, def.inputs, Minus)
      invariant rt.placeCapacityUsed == AdjustAll(old(rt.placeCapacityUsed), place, def.cost, Plus)
      invariant rt.pendingOutputs == AdjustAll(old(rt.pendingOutputs), place, def.outputs[..i], Plus)
    {
      AdjustGrows(old(rt.pendingOutputs), place, def.outputs, i, Plus);
      rt.pendingOutputs := Adjust(rt.pendingOutputs, (place, def.outputs[i].name), def.outputs[i].amount, Plus);
    }
  }

  lemma AdjustNone(m: map<(Id, Id), u64>, place: Id, items: seq<Item>, op: Op)
    ensures AdjustAll(m, place, items[..0], op) == m && items[..|items|] == items
  {
  }

  lemma AdjustGrows(m: map<(Id, Id), u64>, place: Id, items: seq<Item>, i: nat, op: Op)
    requires i < |items|
    ensures AdjustAll(m, place, items[..i + 1], op) == Adjust(AdjustAll(m, place, items[..i], op), (place, items[i].name), items[i].amount, op)
    ensures items[..|items|] == items
  {
    assert items[..i + 1][..i] == items[..i];
  }

  method ReleaseCapacity(def: Transform, rt: Sl1RuntimeState)
    modifies rt`placeCapacityUsed
    ensures rt.placeCapacityUsed == AdjustAll(old(rt.placeCapacityUsed), def.runsOn, def.cost, Free)
  {
    for i := 0 to |def.cost|
      invariant rt.placeCapacityUsed == AdjustAll(old(rt.placeCapacityUsed), def.runsOn, def.cost[..i], Free)
    {
      var b := (def.runsOn, def.cost[i].name);
      if b in rt.placeCapacityUsed {
        rt.placeCapacityUsed := rt.placeCapacityUsed[b := SatSub(rt.placeCapacityUsed[b], def.cost[i].amount)];
      }
      Prefix(def.cost, i);
    }
    WholePrefix(def.cost);
  }

  /** An emptied reservation is forgotten, not kept at zero. */
  method ReleasePendingOutputs(def: Transform, rt: Sl1RuntimeState)
    modifies rt`pendingOutputs
    ensures rt.pendingOutputs == AdjustAll(old(rt.pendingOutputs), def.runsOn, def.outputs, FreeDrop)
  {
    for i := 0 to |def.outputs|
      invariant rt.pendingOutputs == AdjustAll(old(rt.pendingOutputs), def.runsOn, def.outputs[..i], FreeDrop)
    {
      var slot := (def.runsOn, def.outputs[i].name);
      if slot in rt.pendingOutputs {
        var left := SatSub(rt.pendingOutputs[slot], def.outputs[i].amount);
        rt.pendingOutputs := if left == 0 then rt.pendingOutputs - {slot} else rt.pendingOutputs[slot := left];
      }
      Prefix(def.outputs, i);
    }
    WholePrefix(def.outputs);
  }

  method Produce(def: Transform, rt: Sl1RuntimeState, now: u64)
    modifies rt`inventories, rt`freshness
    ensures rt.inventories == AdjustAll(old(rt.inventories), def.runsOn, def.outputs, Plus)
    ensures rt.freshness == Stamp(old(rt.freshness), def.runsOn, def.outputs, now)
  {
    for i := 0 to |def.outputs|
      invariant rt.inventories == AdjustAll(old(rt.inventories), def.runsOn, def.outputs[..i], Plus)
      invariant rt.freshness == Stamp(old(rt.freshness), def.runsOn, def.outputs[..i], now)
    {
      var slot := (def.runsOn, def.outputs[i].name);
      rt.inventories := Adjust(rt.inventories, slot, def.outputs[i].amount, Plus);
      rt.freshness := rt.freshness[slot := Ok(now)];
      Prefix(def.outputs, i);
    }
    WholePrefix(def.outputs);
  }

  // ---- The transitions ----

  method Emit(rt: Sl1RuntimeState, id: Id, kind: WarningKind, now: u64, attempt: Option<u32>)
    modifies rt`transformMessages
    ensures rt.transformMessages == old(rt.transformMessages) + Tagged(id, [Warning(kind, attempt)], now)
  {
    rt.transformMessages := rt.transformMessages + [TransformMessage(id, Warning(kind, attempt), now)];
  }

  lemma TaggedMore(id: Id, a: seq<Warning>, b: seq<Warning>, now: u64)
    ensures Tagged(id, a, now) + Tagged(id, b, now) == Tagged(id, a + b, now)
  {
  }

  method HandleFailurePolicy(def: Transform, rt: Sl1RuntimeState, scheduledAt: u64, attempt: u32, now: u64) returns (next: TState)
    modifies rt`transformMessages
    ensures next == AfterFailure(def, scheduledAt, attempt, now).0
    ensures rt.transformMessages == old(rt.transformMessages) + Tagged(def.id, AfterFailure(def, scheduledAt, attempt, now).1, now)
  {
    match def.policy {
      case Drop =>
        Emit(rt, def.id, FailedWarning, now, Some(attempt));
        next := Idle;
      case RetryThenWarn =>
        if attempt >= def.maxAttempts {
          Emit(rt, def.id, FailedWarning, now, Some(attempt));
          next := Idle;
        } else {
          next := Late(scheduledAt, NextU32(attempt), now);
        }
    }
  }

  /** What a step of the state machine owes the rest of the state: its effect on the plant, and its warnings. */
  twostate predicate Made(rt: Sl1RuntimeState, def: Transform, m: Move, next: TState, now: u64)
    reads rt
  {
    && next == m.next
    && rt.PlantView() == Affect(def, m.effect, old(rt.PlantView()), now)
    && rt.transformMessages == old(rt.transformMessages) + Tagged(def.id, m.warnings, now)
  }

  /** The deadline is looked at before completion: an instance never delivers late. */
  method AdvanceRunning(def: Transform, rt: Sl1RuntimeState, scheduledAt: u64, startedAt: u64, attempt: u32, now: u64) returns (next: TState)
    modifies rt`inventories, rt`freshness, rt`placeCapacityUsed, rt`pendingOutputs, rt`transformMessages
    ensures forall r :: Made(rt, def, Advance(def, Running(scheduledAt, startedAt, attempt), r, now), next, now)
  {
    if now > SatAdd(scheduledAt, def.deadline) {
      ReleaseCapacity(def, rt);
      ReleasePendingOutputs(def, rt);
      Emit(rt, def.id, LateWarning, now, Some(attempt));
      next := HandleFailurePolicy(def, rt, scheduledAt, attempt, now);
      TaggedMore(def.id, [Warning(LateWarning, Some(attempt))], AfterFailure(def, scheduledAt, attempt, now).1, now);
      return;
    }
    if now >= SatAdd(startedAt, def.duration) {
      Produce(def, rt, now);
      ReleaseCapacity(def, rt);
      ReleasePendingOutputs(def, rt);
      return Idle;
    }
    next := Running(scheduledAt, startedAt, attempt);
  }

  method AdvanceWaitingState(def: Transform, rt: Sl1RuntimeState, st: TState, caps: Caps, now: u64) returns (next: TState)
    requires st.Starved? || st.Blocked?
    modifies rt`inventories, rt`placeCapacityUsed, rt`pendingOutputs, rt`transformMessages
    ensures Made(rt, def, Advance(def, st, TryResult(def, caps, rt.pressure.quota, old(rt.PlantView())), now), next, now)
  {
    if now > SatAdd(st.scheduledAt, def.deadline) {
      Emit(rt, def.id, LateWarning, now, Some(st.attempts));
      next := HandleFailurePolicy(def, rt, st.scheduledAt, st.attempts, now);
      TaggedMore(def.id, [Warning(LateWarning, Some(st.attempts))], AfterFailure(def, st.scheduledAt, st.attempts, now).1, now);
      return;
    }
    var r := TryStart(def, rt, caps, now);
    match r {
      case Started => next := Running(st.scheduledAt, now, st.attempts);
      case CannotFeed => next := Starved(st.scheduledAt, st.since, st.attempts);
      case CannotFit => next := Blocked(st.scheduledAt, st.since, st.attempts);
    }
  }

  method AdvanceLate(def: Transform, rt: Sl1RuntimeState, st: TState, caps: Caps, now: u64) returns (next: TState)
    requires st.Late?
    modifies rt`inventories, rt`placeCapacityUsed, rt`pendingOutputs, rt`transformMessages
    ensures Made(rt, def, Advance(def, st, TryResult(def, caps, rt.pressure.quota, old(rt.PlantView())), now), next, now)
  {
    if def.policy.Drop? {
      Emit(rt, def.id, FailedWarning, now, Some(st.attempt));
      return Idle;
    }
    var r := TryStart(def, rt, caps, now);
    if r.Started? { return Running(now, now, st.attempt); }
    if NextU32(st.attempt) > def.maxAttempts {
      Emit(rt, def.id, FailedWarning, now, Some(st.attempt));
      return Idle;
    }
    next := Late(st.scheduledAt, NextU32(st.attempt), st.since);
  }

  method StartAttempt(def: Transform, rt: Sl1RuntimeState, caps: Caps, now: u64) returns (next: TState)
    requires CadenceFires(def, now)
    modifies rt`inventories, rt`placeCapacityUsed, rt`pendingOutputs, rt`transformMessages
    ensures Made(rt, def, Trigger(def, Idle, TryResult(def, caps, rt.pressure.quota, old(rt.PlantView())), now), next, now)
  {
    var r := TryStart(def, rt, caps, now);
    match r {
      case Started => next := Running(now, now, 1);
      case CannotFeed =>
        Emit(rt, def.id, StarvedWarning, now, None);
        next := Starved(now, now, 1);
      case CannotFit =>
        Emit(rt, def.id, BlockedWarning, now, None);
        next := Blocked(now, now, 1);
    }
  }

  // ---- One transform, and all of them ----

  method AdvanceState(def: Transform, rt: Sl1RuntimeState, st: TState, caps: Caps, now: u64) returns (next: TState)
    modifies rt`inventories, rt`freshness, rt`placeCapacityUsed, rt`pendingOutputs, rt`transformMessages
    ensures Made(rt, def, Advance(def, st, TryResult(def, caps, rt.pressure.quota, old(rt.PlantView())), now), next, now)
  {
    match st {
      case Idle => next := Idle;
      case Running(scheduledAt, startedAt, attempt) => next := AdvanceRunning(def, rt, scheduledAt, startedAt, attempt, now);
      case Late(_, _, _) => next := AdvanceLate(def, rt, st, caps, now);
      case _ => next := AdvanceWaitingState(def, rt, st, caps, now);
    }
  }

  method TriggerState(def: Transform, rt: Sl1RuntimeState, st: TState, caps: Caps, now: u64) returns (next: TState)
    modifies rt`inventories, rt`placeCapacityUsed, rt`pendingOutputs, rt`transformMessages
    ensures Made(rt, def, Trigger(def, st, TryResult(def, caps, rt.pressure.quota, old(rt.PlantView())), now), next, now)
  {
    next := st;
    if CadenceFires(def, now) {
      if st.Idle? {
        next := StartAttempt(def, rt, caps, now);
      } else {
        Emit(rt, def.id, SlotMissed, now, None);
      }
    }
  }

  /** Whether an attempt can start depends on stocks and reservations alone. */
  lemma TryLooksAt(def: Transform, caps: Caps, quota: map<Bucket, nat>, p: Plant, p': Plant)
    requires p.inv == p'.inv && p.used == p'.used && p.pend == p'.pend
    ensures TryResult(def, caps, quota, p) == TryResult(def, caps, quota, p')
  {
  }

  lemma AffectLooksAt(def: Transform, effect: Effect, p: Plant, states: map<Id, TState>, h: seq<Logged>, now: u64)
    ensures Affect(def, effect, p.(states := states, history := h), now) == Affect(def, effect, p, now).(states := states, history := h)
  {
  }

  lemma TwoSteps(def: Transform, caps: Caps, quota: map<Bucket, nat>, p: Plant, m1: Move, p1: Plant, m2: Move, p2: Plant, now: u64)
    requires m1 == Advance(def, StateOf(p, def.id), TryResult(def, caps, quota, p), now) && p1 == Affect(def, m1.effect, p, now)
    requires m2 == Trigger(def, m1.next, TryResult(def, caps, quota, p1), now) && p2 == Affect(def, m2.effect, p1, now)
    ensures ProcessOne(def, caps, quota, p, now)
      == p2.(states := p.states[def.id := m2.next], history := p.history + [Logged(def, now, m1)] + [Logged(def, now, m2)])
  {
    hide Advance, Trigger, TryResult, Affect;
    var states, h := p.states[def.id := m1.next], p.history + [Logged(def, now, m1)];
    var q1 := Step(def, p, m1, now);
    AffectKeeps(def, m1.effect, p, now);
    AffectKeeps(def, m2.effect, p1, now);
    assert q1 == p1.(states := states, history := h);
    TryLooksAt(def, caps, quota, p1, q1);
    AffectLooksAt(def, m2.effect, p1, states, h, now);
    assert states[def.id := m2.next] == p.states[def.id := m2.next];
  }

  lemma AffectKeeps(def: Transform, effect: Effect, p: Plant, now: u64)
    ensures Affect(def, effect, p, now).states == p.states && Affect(def, effect, p, now).history == p.history
  {
  }

  /** Step 1 moves the instance in flight on; step 2 opens a slot or misses it; the new state is stored last. */
  method ProcessOneTransform(def: Transform, rt: Sl1RuntimeState, caps: Caps, now: u64)
    requires rt.transformMessages == MessagesOf(rt.history)
    modifies rt`inventories, rt`freshness, rt`transforms, rt`placeCapacityUsed, rt`pendingOutputs, rt`transformMessages, rt`history
    ensures rt.PlantView() == ProcessOne(def, caps, rt.pressure.quota, old(rt.PlantView()), now)
    ensures rt.transformMessages == MessagesOf(rt.history)
  {
    hide Advance, Trigger, TryResult, Affect, ProcessOne, MessagesOf, Tagged;
    ghost var p := rt.PlantView();
    var state := if def.id in rt.transforms then rt.transforms[def.id] else Idle;
    ghost var m1 := Advance(def, state, TryResult(def, caps, rt.pressure.quota, p), now);
    state := AdvanceState(def, rt, state, caps, now);
    ghost var p1 := rt.PlantView();
    ghost var m2 := Trigger(def, state, TryResult(def, caps, rt.pressure.quota, p1), now);
    state := TriggerState(def, rt, state, caps, now);
    ghost var p2 := rt.PlantView();
    TwoSteps(def, caps, rt.pressure.quota, p, m1, p1, m2, p2, now);
    MessagesMore(p.history, Logged(def, now, m1));
    MessagesMore(p.history + [Logged(def, now, m1)], Logged(def, now, m2));
    AffectKeeps(def, m1.effect, p, now);
    AffectKeeps(def, m2.effect, p1, now);
    rt.transforms := rt.transforms[def.id := state];
    rt.history := rt.history + [Logged(def, now, m1)] + [Logged(def, now, m2)];
  }

  lemma MessagesMore(h: seq<Logged>, e: Logged)
    ensures MessagesOf(h + [e]) == MessagesOf(h) + Tagged(e.def.id, e.move.warnings, e.tick)
  {
    assert (h + [e])[..|h|] == h;
  }

  function IdsOf(ts: seq<Transform>): seq<Id> { seq(|ts|, i requires 0 <= i < |ts| => ts[i].id) }

  /** Walking the stored states in key order meets the transforms in the order of the scene. */
  lemma StatesInOrder(ts: seq<Transform>, states: map<Id, TState>)
    requires TransformsOk(ts) && forall id :: id in states <==> exists t :: t in ts && t.id == id
    ensures InjectiveOn(states.Keys, Self) && Listing(states.Keys, Self) == IdsOf(ts)
  {
    var ids := IdsOf(ts);
    forall id ensures id in ids <==> id in states.Keys {
      if id in states.Keys {
        var t :| t in ts && t.id == id;
        var i :| 0 <= i < |ts| && ts[i] == t;
        assert ids[i] == id;
      }
      if id in ids {
        var i :| 0 <= i < |ids| && ids[i] == id;
        assert ts[i] in ts && ts[i].id == id;
      }
    }
    ListingUnique(states.Keys, Self, ids);
  }

  lemma IdsAgree(ts: seq<Transform>)
    ensures |IdsOf(ts)| == |ts| && forall k :: 0 <= k < |ts| ==> IdsOf(ts)[k] == ts[k].id
  {
  }

  lemma OneTransform(ts: seq<Transform>, i: nat, k: nat)
    requires TransformsOk(ts) && i < |ts| && k < |ts| && ts[i].id == ts[k].id
    ensures i == k
  {
    SortedDistinct(ts, TransformKey, i, k);
  }

  lemma ProcessUnfolds(ts: seq<Transform>, caps: Caps, quota: map<Bucket, nat>, p: Plant, now: u64)
    ensures ProcessFirst(ts, 0, caps, quota, p, now) == p
    ensures forall k :: 0 < k <= |ts| ==>
      ProcessFirst(ts, k, caps, quota, p, now) == ProcessOne(ts[k - 1], caps, quota, ProcessFirst(ts, k - 1, caps, quota, p, now), now)
  {
  }

  method FindTransform(ts: seq<Transform>, id: Id) returns (i: nat)
    ensures i <= |ts|
    ensures i < |ts| ==> ts[i].id == id
    ensures i == |ts| ==> forall t :: t in ts ==> t.id != id
  {
    i := 0;
    while i < |ts| && ts[i].id != id
      invariant i <= |ts| && forall j :: 0 <= j < i ==> ts[j].id != id
    {
      i := i + 1;
    }
  }

  /** The keys are collected first, then each is looked up in the scene and processed. */
  method RunTransforms(s: Scene, rt: Sl1RuntimeState, now: u64)
    requires TransformsOk(s.transforms)
    requires forall id :: id in rt.transforms <==> exists t :: t in s.transforms && t.id == id
    requires rt.transformMessages == MessagesOf(rt.history)
    modifies rt`inventories, rt`freshness, rt`transforms, rt`placeCapacityUsed, rt`pendingOutputs, rt`transformMessages, rt`history
    ensures rt.PlantView() == ProcessFirst(s.transforms, |s.transforms|, CapsOf(s.places), rt.pressure.quota, old(rt.PlantView()), now)
    ensures rt.transformMessages == MessagesOf(rt.history)
  {
    hide *;
    var ts := s.transforms;
    var caps := PlaceCaps(s.places);
    StatesInOrder(ts, rt.transforms);
    var ids := Collect(rt.transforms.Keys, Self);
    IdsAgree(ts);
    ProcessUnfolds(ts, caps, rt.pressure.quota, rt.PlantView(), now);
    for k := 0 to |ids|
      invariant rt.PlantView() == ProcessFirst(ts, k, caps, rt.pressure.quota, old(rt.PlantView()), now)
      invariant rt.transformMessages == MessagesOf(rt.history)
    {
      var i := FindTransform(ts, ids[k]);
      assert ts[k] in ts && ts[k].id == ids[k];
      if i < |ts| {
        OneTransform(ts, i, k);
        ProcessOneTransform(ts[i], rt, caps, now);
      }
    }
  }
}
