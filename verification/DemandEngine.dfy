/** The demand pipeline as the engine runs it, in place, against DemandTick. */
module DemandEngine {
  import opened Base
  import opened Order
  import opened Sl1Scene
  import Pressures
  import opened Demands
  import opened Agents
  import opened Sl1State

  /** Every required thing is present at the target; nothing is taken. */
  predicate Stocked(d: Demand, inv: map<Slot, u64>) {
    forall i :: 0 <= i < |d.needs| ==> Get(inv, (d.place, d.needs[i])) > 0
  }

  /** What the rest of the tick hands to the demands. */
  datatype Market = Market(pauses: map<Id, u64>, growth: map<Id, u32>, inv: map<Slot, u64>)

  function TickOf(d: Demand, was: DemandState, m: Market, now: u64): (DemandState, seq<DemandWarning>)
  {
    DemandTick(d, was, Paused(m.pauses, d.id, now), Pressures.EffectiveSpawnCount(m.growth, d.id), Stocked(d, m.inv), now)
  }

  /** The first k demands, in id order. */
  ghost function DemandFirst(ds: seq<Demand>, k: nat, demand: map<Id, DemandState>, m: Market, now: u64): (map<Id, DemandState>, seq<DemandMessage>)
    requires k <= |ds|
  {
    if k == 0 then (demand, [])
    else
      var (before, said) := DemandFirst(ds, k - 1, demand, m, now);
      var d := ds[k - 1];
      if d.id !in before then (before, said)
      else
        var (after, ws) := TickOf(d, before[d.id], m, now);
        (before[d.id := after], said + DemandTagged(d.id, ws, now))
  }

  function DemandIds(ds: seq<Demand>): (ids: seq<Id>)
    ensures |ids| == |ds| && forall i :: 0 <= i < |ds| ==> ids[i] == ds[i].id
  {
    seq(|ds|, i requires 0 <= i < |ds| => ds[i].id)
  }

  // ---- In place ----

  /** Moves the stored cursor past every scripted tick up to now. */
  method ShouldSpawnNow(d: Demand, rt: Sl1RuntimeState, now: u64) returns (due: bool)
    requires d.id in rt.demand
    modifies rt`demand
    ensures due == ShouldSpawn(d.schedule, old(rt.demand)[d.id].cursor, now).0
    ensures rt.demand == old(rt.demand)[d.id := old(rt.demand)[d.id].(cursor := ShouldSpawn(d.schedule, old(rt.demand)[d.id].cursor, now).1)]
  {
    ghost var was := rt.demand[d.id];
    if now == 0 { return false; }
    match d.schedule {
      case Fixed(every, start) => due := now >= start && (now - start) % every == 0;
      case Scripted(ticks) =>
        due := false;
        while rt.demand[d.id].cursor < |ticks|
          invariant d.id in rt.demand
          invariant rt.demand == old(rt.demand)[d.id := was.(cursor := rt.demand[d.id].cursor)]
          invariant Scan(ticks, was.cursor, now) == Scan(ticks, rt.demand[d.id].cursor, now)
          decreases |ticks| - rt.demand[d.id].cursor
        {
          var cursor := rt.demand[d.id].cursor;
          if ticks[cursor] == now {
            rt.demand := rt.demand[d.id := rt.demand[d.id].(cursor := cursor + 1)];
            return true;
          } else if ticks[cursor] < now {
            rt.demand := rt.demand[d.id := rt.demand[d.id].(cursor := cursor + 1)];
          } else {
            return false;
          }
        }
    }
  }

  /** Spawns until enough are in or the backlog is full; a full backlog is reported once. */
  method SpawnInstances(d: Demand, rt: Sl1RuntimeState, want: nat, now: u64) returns (ws: seq<DemandWarning>)
    requires d.id in rt.demand
    modifies rt`demand
    ensures rt.demand == old(rt.demand)[d.id := SpawnMany(old(rt.demand)[d.id], d.deadline, now, want).0]
    ensures ws == SpawnMany(old(rt.demand)[d.id], d.deadline, now, want).1
  {
    ghost var was := rt.demand[d.id];
    ws := [];
    var spawned := 0;
    while spawned < want
      invariant spawned <= want && d.id in rt.demand
      invariant rt.demand == old(rt.demand)[d.id := rt.demand[d.id]]
      invariant SpawnMany(was, d.deadline, now, want) == SpawnMany(rt.demand[d.id], d.deadline, now, want - spawned)
    {
      var rd := rt.demand[d.id];
      if |rd.pending| >= MAX_OUTSTANDING {
        if !rd.overflow {
          rt.demand := rt.demand[d.id := rd.(overflow := true)];
          ws := [BacklogOverflow];
        }
        return;
      }
      var instance := Instance(rd.next, now, SatAdd(now, d.deadline));
      rt.demand := rt.demand[d.id := rd.(next := SatAdd(rd.next, 1), pending := rd.pending + [instance])];
      spawned := spawned + 1;
    }
  }

  method DropPastDeadline(d: Demand, rt: Sl1RuntimeState, now: u64) returns (ws: seq<DemandWarning>)
    requires d.id in rt.demand
    modifies rt`demand
    ensures rt.demand == old(rt.demand)[d.id := DropExpired(old(rt.demand)[d.id], now).0]
    ensures ws == DropExpired(old(rt.demand)[d.id], now).1
  {
    ghost var was := rt.demand[d.id];
    ws := [];
    while rt.demand[d.id].pending != [] && now > rt.demand[d.id].pending[0].deadlineTick
      invariant d.id in rt.demand
      invariant rt.demand == old(rt.demand)[d.id := rt.demand[d.id]]
      invariant DropExpired(was, now).0 == DropExpired(rt.demand[d.id], now).0
      invariant DropExpired(was, now).1 == ws + DropExpired(rt.demand[d.id], now).1
      decreases |rt.demand[d.id].pending|
    {
      var rd := rt.demand[d.id];
      ws := ws + [Dropped(rd.pending[0].sequence)];
      rt.demand := rt.demand[d.id := rd.(pending := rd.pending[1..], dropped := SatAdd(rd.dropped, 1))];
    }
  }

  method RequirementsMet(d: Demand, rt: Sl1RuntimeState) returns (met: bool)
    requires d.id in rt.demand
    ensures met == (Stocked(d, rt.inventories) && rt.demand[d.id].pending != [])
  {
    if rt.demand[d.id].pending == [] { return false; }
    for i := 0 to |d.needs|
      invariant forall j :: 0 <= j < i ==> Get(rt.inventories, (d.place, d.needs[j])) > 0
    {
      if Get(rt.inventories, (d.place, d.needs[i])) == 0 { return false; }
    }
    return true;
  }

  /** Reads the pause, forgetting it when it is over, and spawns if nothing holds the demand back. */
  method SpawnPhase(d: Demand, rt: Sl1RuntimeState, now: u64)
    requires d.id in rt.demand
    modifies rt`demand, rt`demandMessages, rt`agentDemandPauses
    ensures rt.agentDemandPauses == Prune(old(rt.agentDemandPauses), d.id, now)
    ensures var r := Spawn(d, old(rt.demand)[d.id], Paused(old(rt.agentDemandPauses), d.id, now), Pressures.EffectiveSpawnCount(rt.pressure.growth, d.id), now);
      && rt.demand == old(rt.demand)[d.id := r.0]
      && rt.demandMessages == old(rt.demandMessages) + DemandTagged(d.id, r.1, now)
  {
    hide SpawnMany, ShouldSpawn;
    if d.id in rt.agentDemandPauses {
      if now < rt.agentDemandPauses[d.id] { return; }
      rt.agentDemandPauses := rt.agentDemandPauses - {d.id};
    }
    var due := ShouldSpawnNow(d, rt, now);
    if due {
      var ws := SpawnInstances(d, rt, Pressures.EffectiveSpawnCount(rt.pressure.growth, d.id), now);
      rt.demandMessages := rt.demandMessages + DemandTagged(d.id, ws, now);
    }
  }

  /** The oldest instance still in time is fulfilled if its needs are there; a backlog with room again rearms. */
  method FulfilPhase(d: Demand, rt: Sl1RuntimeState)
    requires d.id in rt.demand
    modifies rt`demand
    ensures rt.demand == old(rt.demand)[d.id := Rearm(Fulfil(old(rt.demand)[d.id], Stocked(d, rt.inventories)))]
  {
    var met := RequirementsMet(d, rt);
    if met {
      var rd := rt.demand[d.id];
      rt.demand := rt.demand[d.id := rd.(pending := rd.pending[1..], fulfilled := SatAdd(rd.fulfilled, 1))];
    }
    if rt.demand[d.id].overflow && |rt.demand[d.id].pending| < MAX_OUTSTANDING {
      rt.demand := rt.demand[d.id := rt.demand[d.id].(overflow := false)];
    }
  }

  lemma DemandTaggedMore(id: Id, a: seq<DemandWarning>, b: seq<DemandWarning>, now: u64)
    ensures DemandTagged(id, a, now) + DemandTagged(id, b, now) == DemandTagged(id, a + b, now)
  {
  }

  method OneDemand(d: Demand, rt: Sl1RuntimeState, now: u64)
    requires d.id in rt.demand
    modifies rt`demand, rt`demandMessages, rt`agentDemandPauses
    ensures rt.agentDemandPauses == Prune(old(rt.agentDemandPauses), d.id, now)
    ensures var r := TickOf(d, old(rt.demand)[d.id], Market(old(rt.agentDemandPauses), rt.pressure.growth, rt.inventories), now);
      && rt.demand == old(rt.demand)[d.id := r.0]
      && rt.demandMessages == old(rt.demandMessages) + DemandTagged(d.id, r.1, now)
  {
    hide Spawn, DropExpired, Stocked, Fulfil, Rearm, DemandTagged, Paused, Prune, Pressures.EffectiveSpawnCount;
    SpawnPhase(d, rt, now);
    ghost var w1 := Spawn(d, old(rt.demand)[d.id], Paused(old(rt.agentDemandPauses), d.id, now), Pressures.EffectiveSpawnCount(rt.pressure.growth, d.id), now).1;
    var w2 := DropPastDeadline(d, rt, now);
    rt.demandMessages := rt.demandMessages + DemandTagged(d.id, w2, now);
    FulfilPhase(d, rt);
    DemandTaggedMore(d.id, w1, w2, now);
  }

  lemma DemandUnfold(ds: seq<Demand>, k: nat, demand: map<Id, DemandState>, m: Market, now: u64)
    requires k <= |ds|
    ensures k < |ds| && ds[k].id in DemandFirst(ds, k, demand, m, now).0 ==>
      (var before := DemandFirst(ds, k, demand, m, now); var r := TickOf(ds[k], before.0[ds[k].id], m, now);
       DemandFirst(ds, k + 1, demand, m, now) == (before.0[ds[k].id := r.0], before.1 + DemandTagged(ds[k].id, r.1, now)))
  {
  }

  lemma PruneUnfold(ds: seq<Demand>, k: nat, pauses: map<Id, u64>, now: u64)
    requires k < |ds|
    ensures |DemandIds(ds)| == |ds|
    ensures PruneFirst(DemandIds(ds), k + 1, pauses, now) == Prune(PruneFirst(DemandIds(ds), k, pauses, now), ds[k].id, now)
    ensures Paused(PruneFirst(DemandIds(ds), k, pauses, now), ds[k].id, now) == Paused(pauses, ds[k].id, now)
  {
    PruneKeeps(DemandIds(ds), k, pauses, now, ds[k].id, now);
  }

  lemma RunNone(ds: seq<Demand>, demand: map<Id, DemandState>, m: Market, now: u64)
    ensures DemandFirst(ds, 0, demand, m, now) == (demand, []) && PruneFirst(DemandIds(ds), 0, m.pauses, now) == m.pauses
  {
  }

  lemma TickReads(d: Demand, was: DemandState, m: Market, m': Market, now: u64)
    requires m.growth == m'.growth && m.inv == m'.inv && Paused(m.pauses, d.id, now) == Paused(m'.pauses, d.id, now)
    ensures TickOf(d, was, m, now) == TickOf(d, was, m', now)
  {
  }

  ghost predicate AllPresent(ds: seq<Demand>, demand: map<Id, DemandState>) {
    forall i :: 0 <= i < |ds| ==> ds[i].id in demand
  }

  lemma PresentAt(ds: seq<Demand>, k: nat, before: map<Id, DemandState>, demand: map<Id, DemandState>)
    requires AllPresent(ds, before) && before.Keys == demand.Keys && k < |ds|
    ensures ds[k].id in demand
  {
  }

  method RunDemand(s: Scene, rt: Sl1RuntimeState, ghost m: Market, now: u64)
    requires AllPresent(s.demand, rt.demand)
    requires m == Market(rt.agentDemandPauses, rt.pressure.growth, rt.inventories)
    modifies rt`demand, rt`demandMessages, rt`agentDemandPauses
    ensures rt.agentDemandPauses == PruneFirst(DemandIds(s.demand), |s.demand|, m.pauses, now)
    ensures rt.demand == DemandFirst(s.demand, |s.demand|, old(rt.demand), m, now).0
    ensures rt.demandMessages == old(rt.demandMessages) + DemandFirst(s.demand, |s.demand|, old(rt.demand), m, now).1
    ensures rt.demand.Keys == old(rt.demand).Keys
  {
    hide *;
    var ds := s.demand;
    RunNone(ds, rt.demand, m, now);
    for k := 0 to |ds|
      invariant rt.agentDemandPauses == PruneFirst(DemandIds(ds), k, m.pauses, now)
      invariant rt.demand == DemandFirst(ds, k, old(rt.demand), m, now).0
      invariant rt.demandMessages == old(rt.demandMessages) + DemandFirst(ds, k, old(rt.demand), m, now).1
      invariant rt.demand.Keys == old(rt.demand).Keys
    {
      PresentAt(ds, k, old(rt.demand), rt.demand);
      PruneUnfold(ds, k, m.pauses, now);
      DemandUnfold(ds, k, old(rt.demand), m, now);
      TickReads(ds[k], rt.demand[ds[k].id], Market(rt.agentDemandPauses, rt.pressure.growth, rt.inventories), m, now);
      OneDemand(ds[k], rt, now);
    }
  }
}
