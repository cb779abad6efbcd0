/** What one tick does to the backlog of a demand, told without the steps that do it. */
module Backlogs {
  import opened Base
  import opened Sl1Scene
  import opened Demands

  /** The instances born on tick n, numbered on from `next`. */
  function Born(next: nat, count: nat, deadline: u64, n: u64): seq<Instance>
    requires next + count <= U64_MAX
  {
    seq(count, j requires 0 <= j < count => Instance(next + j, n, SatAdd(n, deadline)))
  }

  /** Those of a queue that are not past their deadline on tick n. */
  function InTime(queue: seq<Instance>, n: u64): (left: seq<Instance>)
    ensures |left| <= |queue|
  {
    if queue == [] then []
    else InTime(queue[..|queue| - 1], n) + if n <= queue[|queue| - 1].deadlineTick then [queue[|queue| - 1]] else []
  }

  /** The reports of those that are. */
  function Misses(queue: seq<Instance>, n: u64): seq<DemandWarning> {
    if queue == [] then []
    else Misses(queue[..|queue| - 1], n) + if n <= queue[|queue| - 1].deadlineTick then [] else [Dropped(queue[|queue| - 1].sequence)]
  }

  function Room(d: DemandState): nat { if |d.pending| <= MAX_OUTSTANDING then MAX_OUTSTANDING - |d.pending| else 0 }

  /** How many are born when the schedule is due. */
  function Births(d: DemandState, due: bool, want: nat): nat { if due then Min(want, Room(d)) else 0 }

  /** The queue on tick n, with those just born at its end. */
  function QueueOn(def: Demand, d: DemandState, due: bool, want: nat, n: u64): seq<Instance>
    requires d.next + Births(d, due, want) <= U64_MAX
  {
    d.pending + Born(d.next, Births(d, due, want), def.deadline, n)
  }

  /**
   * From d to d' on tick n: due instances join the queue as far as there is room; all past their deadline leave it
   * and are reported in order; and if what is needed is in stock and an instance is left, the oldest is fulfilled.
   */
  ghost predicate TickIs(def: Demand, d: DemandState, due: bool, want: nat, stocked: bool, n: u64, d': DemandState, said: seq<DemandWarning>)
    requires d.next + Births(d, due, want) <= U64_MAX
  {
    var queue := QueueOn(def, d, due, want, n);
    var left := InTime(queue, n);
    var served := stocked && left != [];
    && d'.next == d.next + Births(d, due, want)
    && d'.pending == (if served then left[1..] else left)
    && d'.fulfilled == d.fulfilled + (if served then 1 else 0)
    && d'.dropped == d.dropped + |queue| - |left|
    && (d'.overflow <==> (d.overflow || (due && want > Room(d))) && |d'.pending| == MAX_OUTSTANDING)
    && said == (if due && want > Room(d) && !d.overflow then [BacklogOverflow] else []) + Misses(queue, n)
  }

  lemma BornMore(next: nat, count: nat, deadline: u64, n: u64)
    requires count > 0 && next + count <= U64_MAX
    ensures Born(next, count, deadline, n) == [Instance(next, n, SatAdd(n, deadline))] + Born(next + 1, count - 1, deadline, n)
  {
  }

  lemma {:induction false} SpawnIs(d: DemandState, deadline: u64, n: u64, want: nat)
    requires |d.pending| <= MAX_OUTSTANDING && d.next + Min(want, Room(d)) <= U64_MAX
    ensures var born := Min(want, Room(d)); var (d', said) := SpawnMany(d, deadline, n, want);
      && d' == d.(next := d.next + born, pending := d.pending + Born(d.next, born, deadline, n), overflow := d.overflow || want > Room(d))
      && said == if want > Room(d) && !d.overflow then [BacklogOverflow] else []
    decreases want
  {
    if want == 0 || |d.pending| == MAX_OUTSTANDING {
      assert d.pending + Born(d.next, 0, deadline, n) == d.pending;
    } else {
      var one := SpawnOne(d, deadline, n);
      SpawnIs(one, deadline, n, want - 1);
      BornMore(d.next, Min(want, Room(d)), deadline, n);
      assert one.pending + Born(one.next, Min(want - 1, Room(one)), deadline, n) == d.pending + Born(d.next, Min(want, Room(d)), deadline, n);
    }
  }

  lemma LastOf(queue: seq<Instance>, last: Instance, n: u64)
    ensures InTime(queue + [last], n) == InTime(queue, n) + if n <= last.deadlineTick then [last] else []
    ensures Misses(queue + [last], n) == Misses(queue, n) + if n <= last.deadlineTick then [] else [Dropped(last.sequence)]
  {
    assert (queue + [last])[..|queue|] == queue;
  }

  /** When deadlines do not decrease along the queue, the late ones are its first k. */
  lemma {:induction false} LateFirst(queue: seq<Instance>, n: u64, k: nat)
    requires k <= |queue| && forall i :: 0 <= i < |queue| ==> (i < k <==> n > queue[i].deadlineTick)
    ensures InTime(queue, n) == queue[k..] && Misses(queue, n) == Reports(queue, k)
  {
    if queue != [] {
      hide InTime, Misses;
      var front, last := queue[..|queue| - 1], queue[|queue| - 1];
      LastOf(front, last, n);
      assert front + [last] == queue;
      if k == |queue| {
        LateFirst(front, n, k - 1);
        assert Reports(queue, k) == Reports(front, k - 1) + [Dropped(last.sequence)];
      } else {
        LateFirst(front, n, k);
        assert front[k..] + [last] == queue[k..];
        assert Reports(queue, k) == Reports(front, k);
      }
    }
  }

  lemma DropIs(def: Demand, d: DemandState, n: u64, bound: nat)
    requires Conserved(d, bound) && Queued(def, d, n)
    ensures DropExpired(d, n) == (d.(pending := InTime(d.pending, n), dropped := d.dropped + |d.pending| - |InTime(d.pending, n)|), Misses(d.pending, n))
  {
    DropExact(def, d, n, bound);
    LateFirst(d.pending, n, Expiring(d.pending, n));
    hide DropExpired, Expiring, InTime, Misses, Reports;
  }

  /** Dropping, fulfilling and rearming, from queue to what is left of it. */
  lemma SettleTold(def: Demand, d: DemandState, stocked: bool, n: u64, bound: nat)
    requires Conserved(d, bound) && Queued(def, d, n)
    ensures var d' := Rearm(Fulfil(DropExpired(d, n).0, stocked)); var left := InTime(d.pending, n); var served := stocked && left != [];
      && d'.next == d.next && d'.pending == (if served then left[1..] else left)
      && d'.fulfilled == d.fulfilled + (if served then 1 else 0) && d'.dropped == d.dropped + |d.pending| - |left|
      && (d'.overflow <==> d.overflow && |d'.pending| == MAX_OUTSTANDING)
      && DropExpired(d, n).1 == Misses(d.pending, n)
  {
    DropIs(def, d, n, bound);
    hide DropExpired, Queued, InTime, Misses;
  }

  /** One tick of the engine does exactly that. */
  lemma TickTold(def: Demand, d: DemandState, paused: bool, want: nat, stocked: bool, n: u64)
    requires 0 < n && MAX_OUTSTANDING * n <= U64_MAX && DemandOk(def, d, n - 1)
    ensures var due := !paused && ShouldSpawn(def.schedule, d.cursor, n).0; var (d', said) := DemandTick(def, d, paused, want, stocked, n);
      d.next + Births(d, due, want) <= U64_MAX && TickIs(def, d, due, want, stocked, n, d', said)
  {
    SpawnKeeps(def, d, paused, want, n);
    SpawnTold(def, d, paused, want, n);
    hide Spawn, ShouldSpawn, DropExpired, Fulfil, Rearm, Queued, Conserved, InTime, Misses, QueueOn, DemandOk;
    SettleTold(def, Spawn(def, d, paused, want, n).0, stocked, n, MAX_OUTSTANDING * n);
  }

  lemma SpawnTold(def: Demand, d: DemandState, paused: bool, want: nat, n: u64)
    requires 0 < n && MAX_OUTSTANDING * n <= U64_MAX && DemandOk(def, d, n - 1)
    ensures var due := !paused && ShouldSpawn(def.schedule, d.cursor, n).0; var (d1, said) := Spawn(def, d, paused, want, n);
      && d.next + Births(d, due, want) <= U64_MAX
      && d1.next == d.next + Births(d, due, want) && d1.pending == QueueOn(def, d, due, want, n)
      && d1.fulfilled == d.fulfilled && d1.dropped == d.dropped
      && (d1.overflow <==> d.overflow || (due && want > Room(d)))
      && said == if due && want > Room(d) && !d.overflow then [BacklogOverflow] else []
  {
    var cursor := ShouldSpawn(def.schedule, d.cursor, n).1;
    SpawnIs(d.(cursor := cursor), def.deadline, n, want);
    assert d.pending + Born(d.next, 0, def.deadline, n) == d.pending;
    hide ShouldSpawn, Queued, NoneExpired, SpawnMany, Born;
  }

  /** The same over runs, with the schedule asked what it says of the tick. */
  lemma RunTold(def: Demand, calls: seq<Call>, n: nat)
    requires ScheduleOk(def.schedule) && 0 < n <= |calls| <= U64_MAX && MAX_OUTSTANDING * n <= U64_MAX
    ensures var d, c := DemandAt(def, calls, n - 1), calls[n - 1]; var due := !c.paused && Due(def.schedule, n);
      && d.next + Births(d, due, c.want) <= U64_MAX
      && TickIs(def, d, due, c.want, c.stocked, n, DemandAt(def, calls, n), DemandTick(def, d, c.paused, c.want, c.stocked, n).1)
  {
    hide *;
    var d, c := DemandAt(def, calls, n - 1), calls[n - 1];
    DemandInvariant(def, calls, n - 1);
    AskedInTime(def, calls, n);
    TickTold(def, d, c.paused, c.want, c.stocked, n);
    RunUnfold(def, calls, n);
  }
}
