/** Demand: a bounded first-in first-out backlog of instances with deadlines. */
module Demands {
  import opened Base
  import opened Sl1Scene

  const MAX_OUTSTANDING: nat := 10_000

  datatype Instance = Instance(sequence: u64, spawnedAt: u64, deadlineTick: u64)
  datatype DemandState = DemandState(
    next: u64, pending: seq<Instance>, fulfilled: u64, dropped: u64, cursor: nat, overflow: bool)
  datatype DemandWarning = BacklogOverflow | Dropped(sequence: u64)

  const NoDemand := DemandState(0, [], 0, 0, 0, false)

  ghost predicate ScheduleOk(s: Schedule) {
    match s
    case Fixed(_, start) => start > 0
    case Scripted(ticks) => (forall i :: 0 <= i < |ticks| ==> ticks[i] > 0) && forall i, j :: 0 <= i < j < |ticks| ==> ticks[i] < ticks[j]
  }

  // ---- One tick of one demand ----

  /** Moves the cursor past every tick up to `now`; true if it met `now` itself. */
  function Scan(ticks: seq<u64>, cursor: nat, now: u64): (bool, nat)
    decreases |ticks| - cursor
  {
    if cursor >= |ticks| || ticks[cursor] > now then (false, cursor)
    else if ticks[cursor] == now then (true, cursor + 1)
    else Scan(ticks, cursor + 1, now)
  }

  function ShouldSpawn(s: Schedule, cursor: nat, now: u64): (bool, nat)
  {
    if now == 0 then (false, cursor)
    else match s
      case Fixed(every, start) => (now >= start && (now - start) % every == 0, cursor)
      case Scripted(ticks) => Scan(ticks, cursor, now)
  }

  function SpawnOne(d: DemandState, deadline: u64, now: u64): DemandState {
    d.(next := SatAdd(d.next, 1), pending := d.pending + [Instance(d.next, now, SatAdd(now, deadline))])
  }

  /** Spawns until `want` are in or the backlog is full; meeting a full backlog raises the overflow flag. */
  function SpawnMany(d: DemandState, deadline: u64, now: u64, want: nat): (DemandState, seq<DemandWarning>)
    decreases want
  {
    if want == 0 then (d, [])
    else if |d.pending| >= MAX_OUTSTANDING then (d.(overflow := true), if d.overflow then [] else [BacklogOverflow])
    else SpawnMany(SpawnOne(d, deadline, now), deadline, now, want - 1)
  }

  function Spawn(def: Demand, d: DemandState, paused: bool, want: nat, now: u64): (DemandState, seq<DemandWarning>)
  {
    if paused then (d, [])
    else
      var (due, cursor) := ShouldSpawn(def.schedule, d.cursor, now);
      if due then SpawnMany(d.(cursor := cursor), def.deadline, now, want) else (d.(cursor := cursor), [])
  }

  function DropExpired(d: DemandState, now: u64): (DemandState, seq<DemandWarning>)
    decreases |d.pending|
  {
    if d.pending == [] || now <= d.pending[0].deadlineTick then (d, [])
    else
      var (r, ws) := DropExpired(d.(pending := d.pending[1..], dropped := SatAdd(d.dropped, 1)), now);
      (r, [Dropped(d.pending[0].sequence)] + ws)
  }

  function Fulfil(d: DemandState, stocked: bool): DemandState {
    if stocked && d.pending != [] then d.(pending := d.pending[1..], fulfilled := SatAdd(d.fulfilled, 1)) else d
  }

  function Rearm(d: DemandState): DemandState {
    if d.overflow && |d.pending| < MAX_OUTSTANDING then d.(overflow := false) else d
  }

  function DemandTick(def: Demand, d: DemandState, paused: bool, want: nat, stocked: bool, now: u64): (DemandState, seq<DemandWarning>)
  {
    var (d1, w1) := Spawn(def, d, paused, want, now);
    var (d2, w2) := DropExpired(d1, now);
    (Rearm(Fulfil(d2, stocked)), w1 + w2)
  }

  // ---- What every tick keeps ----

  /** Instances wait in the order of their consecutive sequence numbers, which is the order of their deadlines. */
  ghost predicate Queued(def: Demand, d: DemandState, now: nat) {
    && (forall i :: 0 <= i < |d.pending| ==>
          d.pending[i].sequence == d.next - |d.pending| + i
          && d.pending[i].spawnedAt <= now && d.pending[i].deadlineTick == SatAdd(d.pending[i].spawnedAt, def.deadline))
    && (forall i, j :: 0 <= i < j < |d.pending| ==> d.pending[i].spawnedAt <= d.pending[j].spawnedAt)
  }

  ghost predicate Balanced(d: DemandState, bound: nat) {
    d.next == d.fulfilled + d.dropped + |d.pending| && d.next <= bound <= U64_MAX && |d.pending| <= MAX_OUTSTANDING
  }

  ghost predicate Conserved(d: DemandState, bound: nat) {
    Balanced(d, bound) && (d.overflow ==> |d.pending| == MAX_OUTSTANDING)
  }

  ghost predicate NoneExpired(d: DemandState, now: nat) {
    forall i :: 0 <= i < |d.pending| ==> now <= d.pending[i].deadlineTick
  }

  /** Every sequence number handed out was fulfilled, dropped or is pending; nothing pending is past its deadline. */
  ghost predicate DemandOk(def: Demand, d: DemandState, now: nat) {
    Conserved(d, MAX_OUTSTANDING * now) && Queued(def, d, now) && NoneExpired(d, now)
  }

  lemma {:induction false} SpawnManyKeeps(def: Demand, d: DemandState, now: u64, want: nat, bound: nat)
    requires Conserved(d, bound) && Queued(def, d, now) && bound + Min(want, MAX_OUTSTANDING - |d.pending|) <= U64_MAX
    requires !d.overflow || |d.pending| == MAX_OUTSTANDING
    ensures var d' := SpawnMany(d, def.deadline, now, want).0;
      && Conserved(d', bound + Min(want, MAX_OUTSTANDING - |d.pending|)) && Queued(def, d', now)
      && d'.cursor == d.cursor && d'.fulfilled == d.fulfilled && d'.dropped == d.dropped
      && |d'.pending| == |d.pending| + Min(want, MAX_OUTSTANDING - |d.pending|)
    decreases want
  {
    if want > 0 && |d.pending| < MAX_OUTSTANDING {
      SpawnManyKeeps(def, SpawnOne(d, def.deadline, now), now, want - 1, bound + 1);
    }
  }

  /** How many instances at the front are past their deadline. */
  function Expiring(pending: seq<Instance>, now: u64): (k: nat)
    ensures k <= |pending|
    ensures forall i :: 0 <= i < k ==> now > pending[i].deadlineTick
    ensures k < |pending| ==> now <= pending[k].deadlineTick
  {
    if pending == [] || now <= pending[0].deadlineTick then 0 else 1 + Expiring(pending[1..], now)
  }

  /** The reports of the first k instances. */
  function Reports(pending: seq<Instance>, k: nat): seq<DemandWarning>
    requires k <= |pending|
  {
    seq(k, i requires 0 <= i < k => Dropped(pending[i].sequence))
  }

  lemma ReportsFirst(pending: seq<Instance>, k: nat)
    requires 0 < k <= |pending|
    ensures [Dropped(pending[0].sequence)] + Reports(pending[1..], k - 1) == Reports(pending, k) && pending[1..][k - 1..] == pending[k..]
  {
  }

  lemma DropUnfold(d: DemandState, now: u64)
    requires d.dropped + |d.pending| <= U64_MAX && d.pending != [] && now > d.pending[0].deadlineTick
    ensures var rest := d.(pending := d.pending[1..], dropped := d.dropped + 1);
      && DropExpired(d, now) == (DropExpired(rest, now).0, [Dropped(d.pending[0].sequence)] + DropExpired(rest, now).1)
      && Expiring(d.pending, now) == 1 + Expiring(d.pending[1..], now)
  {
  }

  lemma {:induction false} DropShape(d: DemandState, now: u64)
    requires d.dropped + |d.pending| <= U64_MAX
    ensures var k := Expiring(d.pending, now);
      DropExpired(d, now) == (d.(pending := d.pending[k..], dropped := d.dropped + k), Reports(d.pending, k))
    decreases |d.pending|
  {
    if d.pending != [] && now > d.pending[0].deadlineTick {
      DropUnfold(d, now);
      var rest := d.(pending := d.pending[1..], dropped := d.dropped + 1);
      DropShape(rest, now);
      ReportsFirst(d.pending, Expiring(d.pending, now));
    } else {
      assert d.pending[0..] == d.pending && Reports(d.pending, 0) == [];
    }
  }

  /** The front-only loop removes exactly the expired instances and reports each of them, in order. */
  lemma DropExact(def: Demand, d: DemandState, now: u64, bound: nat)
    requires Conserved(d, bound) && Queued(def, d, now)
    ensures var k := Expiring(d.pending, now);
      && DropExpired(d, now) == (d.(pending := d.pending[k..], dropped := d.dropped + k), Reports(d.pending, k))
      && forall i :: 0 <= i < |d.pending| ==> (i < k <==> now > d.pending[i].deadlineTick)
  {
    DropShape(d, now);
    var k := Expiring(d.pending, now);
    forall i | k <= i < |d.pending| ensures now <= d.pending[i].deadlineTick {
      if i > k { assert d.pending[k].spawnedAt <= d.pending[i].spawnedAt; }
    }
  }

  lemma QueuedTail(def: Demand, d: DemandState, now: nat, k: nat, d': DemandState)
    requires Queued(def, d, now) && k <= |d.pending| && d'.pending == d.pending[k..] && d'.next == d.next
    ensures Queued(def, d', now)
  {
    assert forall i :: 0 <= i < |d'.pending| ==> d'.pending[i] == d.pending[i + k];
  }

  lemma SpawnKeeps(def: Demand, d: DemandState, paused: bool, want: nat, now: u64)
    requires 0 < now && MAX_OUTSTANDING * now <= U64_MAX && DemandOk(def, d, now - 1)
    ensures var d1 := Spawn(def, d, paused, want, now).0;
      && Conserved(d1, MAX_OUTSTANDING * now) && Queued(def, d1, now)
      && d1.next == d.next + if !paused && ShouldSpawn(def.schedule, d.cursor, now).0 then Min(want, MAX_OUTSTANDING - |d.pending|) else 0
  {
    var cursor := ShouldSpawn(def.schedule, d.cursor, now).1;
    assert Queued(def, d.(cursor := cursor), now);
    SpawnManyKeeps(def, d.(cursor := cursor), now, want, MAX_OUTSTANDING * (now - 1));
  }

  /** Dropping, fulfilling and rearming only ever shorten the queue from the front, and account for it. */
  lemma SettleKeeps(def: Demand, d: DemandState, stocked: bool, now: u64, bound: nat)
    requires Conserved(d, bound) && Queued(def, d, now)
    ensures var d' := Rearm(Fulfil(DropExpired(d, now).0, stocked));
      && Conserved(d', bound) && Queued(def, d', now) && NoneExpired(d', now) && d'.next == d.next
  {
    hide *;
    DropKeeps(def, d, now, bound);
    FulfilKeeps(def, DropExpired(d, now).0, stocked, now, bound);
  }

  lemma DropKeeps(def: Demand, d: DemandState, now: u64, bound: nat)
    requires Conserved(d, bound) && Queued(def, d, now)
    ensures var d2 := DropExpired(d, now).0; Balanced(d2, bound) && Queued(def, d2, now) && NoneExpired(d2, now) && d2.next == d.next
  {
    DropExact(def, d, now, bound);
    hide DropExpired, Expiring, Reports, Queued;
    var k := Expiring(d.pending, now);
    QueuedTail(def, d, now, k, d.(pending := d.pending[k..], dropped := d.dropped + k));
  }

  lemma FulfilKeeps(def: Demand, d: DemandState, stocked: bool, now: u64, bound: nat)
    requires Balanced(d, bound) && Queued(def, d, now) && NoneExpired(d, now)
    ensures var d' := Rearm(Fulfil(d, stocked)); Conserved(d', bound) && Queued(def, d', now) && NoneExpired(d', now) && d'.next == d.next
  {
    hide Queued;
    QueuedTail(def, d, now, if stocked && d.pending != [] then 1 else 0, Rearm(Fulfil(d, stocked)));
  }

  lemma TickKeeps(def: Demand, d: DemandState, paused: bool, want: nat, stocked: bool, now: u64)
    requires 0 < now && MAX_OUTSTANDING * now <= U64_MAX && DemandOk(def, d, now - 1)
    ensures DemandOk(def, DemandTick(def, d, paused, want, stocked, now).0, now)
    ensures DemandTick(def, d, paused, want, stocked, now).0.next
      == d.next + if !paused && ShouldSpawn(def.schedule, d.cursor, now).0 then Min(want, MAX_OUTSTANDING - |d.pending|) else 0
  {
    SpawnKeeps(def, d, paused, want, now);
    hide Spawn, DropExpired, Fulfil, Rearm, Conserved, Queued, NoneExpired;
    SettleKeeps(def, Spawn(def, d, paused, want, now).0, stocked, now, MAX_OUTSTANDING * now);
  }

  // ---- Runs ----

  /** What a demand meets on one tick: an agent's pause, the overlay's spawn count, the stock at its place. */
  datatype Call = Call(paused: bool, want: nat, stocked: bool)

  ghost function DemandAt(def: Demand, calls: seq<Call>, n: nat): DemandState
    requires n <= |calls| <= U64_MAX
  {
    if n == 0 then NoDemand
    else DemandTick(def, DemandAt(def, calls, n - 1), calls[n - 1].paused, calls[n - 1].want, calls[n - 1].stocked, n).0
  }

  /** On every run, as long as the sequence counter cannot have run out. */
  lemma {:induction false} DemandInvariant(def: Demand, calls: seq<Call>, n: nat)
    requires ScheduleOk(def.schedule) && n <= |calls| <= U64_MAX && MAX_OUTSTANDING * n <= U64_MAX
    ensures DemandOk(def, DemandAt(def, calls, n), n)
  {
    if n > 0 {
      DemandInvariant(def, calls, n - 1);
      TickKeeps(def, DemandAt(def, calls, n - 1), calls[n - 1].paused, calls[n - 1].want, calls[n - 1].stocked, n);
    }
  }

  /** What the schedule says of a tick, without a cursor. */
  predicate Due(s: Schedule, now: u64)
  {
    match s
    case Fixed(every, start) => now >= start && (now - start) % every == 0
    case Scripted(ticks) => now in ticks
  }

  /** The cursor splits the script at the last tick it was asked about. */
  ghost predicate CursorAt(ticks: seq<u64>, cursor: nat, last: nat) {
    && cursor <= |ticks|
    && (forall i :: 0 <= i < cursor ==> ticks[i] <= last)
    && (forall i :: cursor <= i < |ticks| ==> ticks[i] > last)
  }

  lemma {:induction false} ScanAnswers(ticks: seq<u64>, cursor: nat, last: nat, now: u64)
    requires forall i, j :: 0 <= i < j < |ticks| ==> ticks[i] < ticks[j]
    requires last < now && cursor <= |ticks|
    requires forall i :: 0 <= i < cursor ==> ticks[i] < now
    requires forall i :: cursor <= i < |ticks| ==> ticks[i] > last
    ensures Scan(ticks, cursor, now).0 <==> now in ticks
    ensures CursorAt(ticks, Scan(ticks, cursor, now).1, now)
    decreases |ticks| - cursor
  {
    if cursor < |ticks| && ticks[cursor] < now {
      ScanAnswers(ticks, cursor + 1, last, now);
    }
  }

  /** The last tick on which the schedule was consulted: pauses skip ticks, and the cursor with them. */
  function LastAsked(calls: seq<Call>, n: nat): nat
    requires n <= |calls|
  {
    if n == 0 then 0 else if calls[n - 1].paused then LastAsked(calls, n - 1) else n
  }

  lemma {:induction false} CursorOnRun(def: Demand, calls: seq<Call>, n: nat)
    requires ScheduleOk(def.schedule) && def.schedule.Scripted? && n <= |calls| <= U64_MAX
    ensures LastAsked(calls, n) <= n && CursorAt(def.schedule.ticks, DemandAt(def, calls, n).cursor, LastAsked(calls, n))
  {
    if n > 0 {
      CursorOnRun(def, calls, n - 1);
      var before := DemandAt(def, calls, n - 1);
      CursorOnlyScans(def, before, calls[n - 1], n);
      if !calls[n - 1].paused {
        ScanAnswers(def.schedule.ticks, before.cursor, LastAsked(calls, n - 1), n);
      }
    }
  }

  lemma CursorOnlyScans(def: Demand, d: DemandState, c: Call, now: u64)
    requires def.schedule.Scripted? && now > 0
    ensures DemandTick(def, d, c.paused, c.want, c.stocked, now).0.cursor == if c.paused then d.cursor else Scan(def.schedule.ticks, d.cursor, now).1
  {
    var cursor := Scan(def.schedule.ticks, d.cursor, now).1;
    SpawnCursor(d.(cursor := cursor), def.deadline, now, c.want);
    DropCursor(Spawn(def, d, c.paused, c.want, now).0, now);
  }

  lemma {:induction false} SpawnCursor(d: DemandState, deadline: u64, now: u64, want: nat)
    ensures SpawnMany(d, deadline, now, want).0.cursor == d.cursor
    decreases want
  {
    if want > 0 && |d.pending| < MAX_OUTSTANDING { SpawnCursor(SpawnOne(d, deadline, now), deadline, now, want - 1); }
  }

  lemma {:induction false} DropCursor(d: DemandState, now: u64)
    ensures DropExpired(d, now).0.cursor == d.cursor
    decreases |d.pending|
  {
    if d.pending != [] && now > d.pending[0].deadlineTick {
      DropCursor(d.(pending := d.pending[1..], dropped := SatAdd(d.dropped, 1)), now);
    }
  }

  /**
   * On tick n of any run a demand spawns exactly when it is not paused and its schedule names n: as many
   * instances as wanted and as fit, each due at n + deadline.
   */
  lemma SpawnsExactlyWhenDue(def: Demand, calls: seq<Call>, n: nat)
    requires ScheduleOk(def.schedule) && 0 < n <= |calls| <= U64_MAX && MAX_OUTSTANDING * n <= U64_MAX
    ensures var before, c := DemandAt(def, calls, n - 1), calls[n - 1];
      DemandAt(def, calls, n).next == before.next
        + if !c.paused && Due(def.schedule, n) then Min(c.want, MAX_OUTSTANDING - |before.pending|) else 0
  {
    hide *;
    var before, c := DemandAt(def, calls, n - 1), calls[n - 1];
    DemandInvariant(def, calls, n - 1);
    AskedInTime(def, calls, n);
    TickKeeps(def, before, c.paused, c.want, c.stocked, n);
    RunUnfold(def, calls, n);
  }

  lemma RunUnfold(def: Demand, calls: seq<Call>, n: nat)
    requires 0 < n <= |calls| <= U64_MAX
    ensures DemandAt(def, calls, n)
      == DemandTick(def, DemandAt(def, calls, n - 1), calls[n - 1].paused, calls[n - 1].want, calls[n - 1].stocked, n).0
  {
    hide DemandTick;
  }

  /** On every run the schedule, asked through its cursor, answers what it says of the tick. */
  lemma AskedInTime(def: Demand, calls: seq<Call>, n: nat)
    requires ScheduleOk(def.schedule) && 0 < n <= |calls| <= U64_MAX
    ensures ShouldSpawn(def.schedule, DemandAt(def, calls, n - 1).cursor, n).0 <==> Due(def.schedule, n)
  {
    if def.schedule.Scripted? {
      CursorOnRun(def, calls, n - 1);
      hide DemandAt, LastAsked;
      ScanAnswers(def.schedule.ticks, DemandAt(def, calls, n - 1).cursor, LastAsked(calls, n - 1), n);
    }
  }
}
