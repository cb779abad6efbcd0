/** What objectives and failure conditions test, and how a game ends, told from deliveries, initial stock and what is running. */
module GoalMeanings {
  import opened Base
  import opened Order
  import opened Sl1Scene
  import opened Plants
  import opened PlantRuns
  import opened Reservations
  import opened Observations
  import opened Goals
  import opened GoalRuns

  /** What has happened by the end of a tick: all moves, what runs, and how much demand was dropped. */
  datatype Sight = Sight(lay: Layout, plant: Plant, dropped: map<Id, u64>)

  /** The slot was stocked at the start, or delivered to, within the last `limit` ticks. */
  ghost predicate FreshWithin(v: Sight, slot: Slot, limit: nat, n: nat) {
    SeenWithin(v.lay, v.plant.history, slot, limit, n)
  }

  /** Units of a bucket that the running transforms cost. */
  function InUse(v: Sight, b: Bucket): nat { RunningSum(v.lay.ts, v.plant.states, CapacityOf(b)) }

  /** A declared place has this much of a bucket. */
  ghost predicate HasCapacity(places: seq<Place>, place: Id, bucket: Id, cap: nat) {
    cap > 0 && exists p :: p in places && p.id == place && Get(p.capacity, bucket) == cap
  }

  /** Of `cap` units, `used` are at least `percent` percent, when rounded down and cut off at 100. */
  predicate AtLeastPercent(used: nat, cap: nat, percent: nat) {
    percent * cap <= 100 * Min(used, cap)
  }

  ghost predicate UsedAtLeast(places: seq<Place>, v: Sight, place: Id, bucket: Id, percent: nat) {
    percent == 0 || exists cap: nat :: HasCapacity(places, place, bucket, cap) && AtLeastPercent(InUse(v, (place, bucket)), cap, percent)
  }

  /** The objective is missed on tick n: nothing fresh enough, too much dropped, or too little or too much in use. */
  ghost predicate Missed(places: seq<Place>, v: Sight, o: Objective, n: nat) {
    match o.params
    case KeepFresh(place, thing, maxStale) => !FreshWithin(v, (place, thing), maxStale, n)
    case CompleteJobs(demand, maxMissed) => Get(v.dropped, demand) > maxMissed
    case MaintainUtilization(place, bucket, min, max) =>
      if exists cap: nat :: HasCapacity(places, place, bucket, cap)
      then !UsedAtLeast(places, v, place, bucket, min) || UsedAtLeast(places, v, place, bucket, max + 1)
      else min > 0
    case UnsupportedObjective => false
  }

  /** On how many ticks up to n it was missed. */
  ghost function MissedTicks(places: seq<Place>, vs: seq<Sight>, o: Objective, n: nat): nat
    requires n <= |vs|
  {
    if n == 0 then 0 else MissedTicks(places, vs, o, n - 1) + if Missed(places, vs[n - 1], o, n) then 1 else 0
  }

  /** The failure condition holds on tick n: its slot too stale, its bucket too full, or its objective missed too often. */
  ghost predicate Holds(r: Rules, vs: seq<Sight>, f: Failure, n: nat)
    requires 0 < n <= |vs|
  {
    match f.params
    case StaleTarget(place, thing, threshold, _) => !FreshWithin(vs[n - 1], (place, thing), threshold, n)
    case PlaceState(place, state, _) => TooFull(r.places, vs[n - 1], place, state)
    case BreachCount(objective, maxCount) => exists o :: o in r.objectives && o.id == objective && MissedTicks(r.places, vs, o, n) > maxCount
  }

  /** The place is in this state: of its bucket, at least the threshold is in use. */
  ghost predicate TooFull(places: seq<Place>, v: Sight, place: Id, state: Id) {
    exists p :: p in places && p.id == place && state in p.states && p.states[state].UsedPercentGte?
                && UsedAtLeast(places, v, place, p.states[state].bucket, p.states[state].threshold)
  }

  /** It has held on every tick from k to n. */
  ghost predicate HeldFrom(r: Rules, vs: seq<Sight>, f: Failure, k: nat, n: nat)
    requires 0 < k && n <= |vs|
  {
    forall t :: k <= t <= n ==> Holds(r, vs, f, t)
  }

  function GraceOf(f: Failure): u64 { if f.params.BreachCount? then 0 else f.params.grace }

  /** It has held on more consecutive ticks, up to n, than its grace. */
  ghost predicate FailsOn(r: Rules, vs: seq<Sight>, f: Failure, n: nat)
    requires n <= |vs|
  {
    exists k :: 1 <= k <= n && n - k + 1 > GraceOf(f) && HeldFrom(r, vs, f, k, n)
  }

  // ---- What the engine tests means just that ----

  /** What a tick of goals is shown is what has happened. */
  ghost predicate Shows(v: Sight, s: Snapshot, n: u64) {
    && v.lay.initial.Keys == v.lay.caps.storage.Keys && Observed(v.lay, v.plant, n)
    && s == Snapshot(v.plant.stamps, v.plant.used, v.dropped)
  }

  ghost predicate AllShow(r: Rules, vs: seq<Sight>, ss: seq<Snapshot>) {
    && |vs| == |ss| <= U64_MAX && SortedBy(r.places, PlaceKey)
    && forall k :: 0 <= k < |vs| ==> Shows(vs[k], ss[k], k + 1)
  }

  lemma AllShown(r: Rules, vs: seq<Sight>, ss: seq<Snapshot>, places: seq<Place>)
    requires |vs| == |ss| <= U64_MAX && r.places == places && SortedBy(places, PlaceKey)
    requires forall k :: 0 <= k < |vs| ==> Shows(vs[k], ss[k], k + 1)
    ensures AllShow(r, vs, ss)
  {
  }

  /** Comparing the age of a tag asks whether something was put into the slot recently enough. */
  lemma OlderMeans(lay: Layout, p: Plant, slot: Slot, limit: u64, n: u64)
    requires lay.initial.Keys == lay.caps.storage.Keys && Observed(lay, p, n)
    ensures OlderThan(Tag(p.stamps, slot), limit, n) <==> !SeenWithin(lay, p.history, slot, limit, n)
  {
    StampMeans(lay, p, n, slot);
    InOrder(lay, p, n);
    TagLatest(lay, p.history, slot, n);
    hide SeenOn, TagOf, Observed, Budget;
  }

  lemma FloorAtLeast(part: nat, cap: nat, percent: nat)
    requires cap > 0
    ensures part / cap >= percent <==> percent * cap <= part
  {
    var q := part / cap;
    assert q * cap <= part < q * cap + cap;
    Scaled(q, q, cap);
    if q >= percent { Scaled(percent, q, cap); } else { Scaled(q + 1, percent, cap); }
  }

  lemma Scaled(a: nat, b: nat, cap: nat)
    requires a <= b
    ensures a * cap <= b * cap && (a + 1) * cap == a * cap + cap
  {
  }

  lemma PlaceIs(places: seq<Place>, p: Place)
    requires SortedBy(places, PlaceKey) && p in places
    ensures FindPlace(places, p.id) == Some(p)
  {
    var q := FindPlace(places, p.id).value;
    var i :| 0 <= i < |places| && places[i] == p;
    var j :| 0 <= j < |places| && places[j] == q;
    SortedDistinct(places, PlaceKey, i, j);
  }

  lemma CapacityMeans(places: seq<Place>, place: Id, bucket: Id)
    requires SortedBy(places, PlaceKey)
    ensures forall cap: nat :: HasCapacity(places, place, bucket, cap) <==> cap > 0 && BaseCapacity(places, place, bucket) == cap
  {
    forall cap: nat ensures HasCapacity(places, place, bucket, cap) <==> cap > 0 && BaseCapacity(places, place, bucket) == cap {
      if HasCapacity(places, place, bucket, cap) {
        var p :| p in places && p.id == place && Get(p.capacity, bucket) == cap;
        PlaceIs(places, p);
      }
    }
  }

  lemma PercentMeans(places: seq<Place>, v: Sight, place: Id, bucket: Id, percent: nat)
    requires SortedBy(places, PlaceKey) && UsedExactly(v.lay.ts, v.plant)
    ensures Percent(places, v.plant.used, place, bucket) >= percent <==> UsedAtLeast(places, v, place, bucket, percent)
  {
    var cap, used := BaseCapacity(places, place, bucket), Get(v.plant.used, (place, bucket));
    assert used == InUse(v, (place, bucket));
    CapacityMeans(places, place, bucket);
    hide HasCapacity, RunningSum, BaseCapacity, SortedBy;
    if cap > 0 {
      FloorAtLeast(Min(used, cap) * 100, cap, percent);
      assert HasCapacity(places, place, bucket, cap);
    }
  }

  /** The status of an objective is unsupported, breached if it is missed, and met otherwise. */
  lemma EvaluateMeans(r: Rules, v: Sight, o: Objective, s: Snapshot, n: u64)
    requires SortedBy(r.places, PlaceKey) && Shows(v, s, n)
    ensures Evaluate(r, o, s, n) == if o.params.UnsupportedObjective? then Unsupported else if Missed(r.places, v, o, n) then Breached else Met
  {
    InOrder(v.lay, v.plant, n);
    hide Observed, SeenWithin, SortedBy, UsedAtLeast, HasCapacity, Percent, BaseCapacity, OlderThan, Tag;
    match o.params {
      case KeepFresh(place, thing, maxStale) => OlderMeans(v.lay, v.plant, (place, thing), maxStale, n);
      case CompleteJobs(demand, maxMissed) =>
      case MaintainUtilization(place, bucket, min, max) =>
        CapacityMeans(r.places, place, bucket);
        PercentMeans(r.places, v, place, bucket, min);
        PercentMeans(r.places, v, place, bucket, max + 1);
        assert BaseCapacity(r.places, place, bucket) > 0 ==> HasCapacity(r.places, place, bucket, BaseCapacity(r.places, place, bucket));
      case UnsupportedObjective =>
    }
  }

  lemma MissIsBreach(r: Rules, v: Sight, o: Objective, s: Snapshot, n: u64)
    requires SortedBy(r.places, PlaceKey) && Shows(v, s, n)
    ensures Evaluate(r, o, s, n).Breached? <==> Missed(r.places, v, o, n)
  {
    EvaluateMeans(r, v, o, s, n);
    hide Evaluate, Shows, SortedBy, FreshWithin, UsedAtLeast, HasCapacity;
  }

  lemma {:induction false} MissesCounted(r: Rules, vs: seq<Sight>, ss: seq<Snapshot>, o: Objective, n: nat)
    requires AllShow(r, vs, ss) && n <= |vs|
    ensures BreachTicks(r, ss, o, n) == MissedTicks(r.places, vs, o, n)
  {
    hide Missed, Evaluate, Shows, SortedBy;
    if n > 0 {
      MissesCounted(r, vs, ss, o, n - 1);
      MissIsBreach(r, vs[n - 1], o, ss[n - 1], n);
    }
  }

  lemma StateMeans(places: seq<Place>, v: Sight, place: Id, state: Id)
    requires SortedBy(places, PlaceKey) && UsedExactly(v.lay.ts, v.plant)
    ensures var p := FindPlace(places, place);
      (p.Some? && state in p.value.states && p.value.states[state].UsedPercentGte?
       && Percent(places, v.plant.used, place, p.value.states[state].bucket) >= p.value.states[state].threshold) <==> TooFull(places, v, place, state)
  {
    forall p | p in places && p.id == place ensures FindPlace(places, place) == Some(p) { PlaceIs(places, p); }
    hide UsedAtLeast, Percent, SortedBy, UsedExactly;
    forall bucket, percent: nat ensures Percent(places, v.plant.used, place, bucket) >= percent <==> UsedAtLeast(places, v, place, bucket, percent) {
      PercentMeans(places, v, place, bucket, percent);
    }
  }

  lemma CountMeans(r: Rules, vs: seq<Sight>, ss: seq<Snapshot>, f: Failure, n: nat)
    requires AllShow(r, vs, ss) && 0 < n <= |vs| && f.params.BreachCount?
    ensures BreachedOn(r, ss, f, n) <==> Holds(r, vs, f, n)
  {
    hide AllShow, BreachTicks, MissedTicks;
    forall o { MissesCounted(r, vs, ss, o, n); }
    if o :| o in r.objectives && o.id == f.params.objective && MissedTicks(r.places, vs, o, n) > f.params.maxCount {
      var i :| 0 <= i < |r.objectives| && r.objectives[i] == o;
    }
  }

  /** On every tick the engine finds a failure condition breached exactly if it holds. */
  lemma BreachMeans(r: Rules, vs: seq<Sight>, ss: seq<Snapshot>, f: Failure, n: nat)
    requires AllShow(r, vs, ss) && 0 < n <= |vs|
    ensures BreachedOn(r, ss, f, n) <==> Holds(r, vs, f, n)
  {
    assert Shows(vs[n - 1], ss[n - 1], n);
    InOrder(vs[n - 1].lay, vs[n - 1].plant, n);
    hide Observed, SeenWithin, SortedBy, TooFull, Percent, OlderThan, Tag, BreachTicks, MissedTicks;
    match f.params {
      case StaleTarget(place, thing, threshold, _) => OlderMeans(vs[n - 1].lay, vs[n - 1].plant, (place, thing), threshold, n);
      case PlaceState(place, state, _) => StateMeans(r.places, vs[n - 1], place, state);
      case BreachCount(_, _) => CountMeans(r, vs, ss, f, n);
    }
  }

  // ---- How long a condition has held ----

  lemma {:induction false} StreakMeans(r: Rules, vs: seq<Sight>, ss: seq<Snapshot>, f: Failure, n: nat)
    requires AllShow(r, vs, ss) && n <= |vs|
    ensures var streak := Streak(r, ss, f, n);
      && streak <= n && HeldFrom(r, vs, f, n - streak + 1, n) && (streak < n ==> !Holds(r, vs, f, n - streak))
  {
    hide AllShow, Holds, BreachedOn;
    if n > 0 {
      StreakMeans(r, vs, ss, f, n - 1);
      BreachMeans(r, vs, ss, f, n);
    }
  }

  lemma FailsMeans(r: Rules, vs: seq<Sight>, ss: seq<Snapshot>, f: Failure, n: nat)
    requires AllShow(r, vs, ss) && n <= |vs|
    ensures Fails(r, ss, f, n) <==> FailsOn(r, vs, f, n)
  {
    hide *;
    LengthsSame(r, vs, ss);
    StreakMeans(r, vs, ss, f, n);
    LongestSpell(r, vs, f, n, Streak(r, ss, f, n));
    FailsUnfold(r, ss, f, n);
  }

  lemma LengthsSame(r: Rules, vs: seq<Sight>, ss: seq<Snapshot>)
    requires AllShow(r, vs, ss)
    ensures |vs| == |ss| <= U64_MAX
  {
    hide Shows;
  }

  lemma FailsUnfold(r: Rules, ss: seq<Snapshot>, f: Failure, n: nat)
    requires n <= |ss| <= U64_MAX
    ensures Fails(r, ss, f, n) <==> Streak(r, ss, f, n) > GraceOf(f)
  {
    hide Streak;
  }

  /** A condition fails exactly if the longest spell up to n is longer than its grace. */
  lemma LongestSpell(r: Rules, vs: seq<Sight>, f: Failure, n: nat, spell: nat)
    requires spell <= n <= |vs| && HeldFrom(r, vs, f, n - spell + 1, n) && (spell < n ==> !Holds(r, vs, f, n - spell))
    ensures FailsOn(r, vs, f, n) <==> spell > GraceOf(f)
  {
    hide Holds;
    if FailsOn(r, vs, f, n) {
      var k :| 1 <= k <= n && n - k + 1 > GraceOf(f) && HeldFrom(r, vs, f, k, n);
      assert spell < n ==> n - spell < k;
    }
  }

  // ---- How the game ends ----

  /** The lowest condition that fails on tick n. */
  ghost predicate Lowest(r: Rules, ss: seq<Snapshot>, fs: seq<Failure>, n: nat, i: int)
    requires n <= |ss| <= U64_MAX
  {
    0 <= i < |fs| && Fails(r, ss, fs[i], n) && forall j :: 0 <= j < i ==> !Fails(r, ss, fs[j], n)
  }

  lemma {:induction false} LowestMeans(r: Rules, ss: seq<Snapshot>, fs: seq<Failure>, n: nat)
    requires n <= |ss| <= U64_MAX
    ensures LowestFailing(r, ss, fs, n).None? ==> forall i :: 0 <= i < |fs| ==> !Fails(r, ss, fs[i], n)
    ensures LowestFailing(r, ss, fs, n).Some? ==> exists i :: Lowest(r, ss, fs, n, i) && fs[i].id == LowestFailing(r, ss, fs, n).value
  {
    hide Fails;
    if fs != [] && !Fails(r, ss, fs[0], n) {
      LowestMeans(r, ss, fs[1..], n);
      assert forall j :: 0 < j < |fs| ==> fs[j] == fs[1..][j - 1];
      if LowestFailing(r, ss, fs, n).Some? {
        var i :| Lowest(r, ss, fs[1..], n, i) && fs[1..][i].id == LowestFailing(r, ss, fs, n).value;
        assert Lowest(r, ss, fs, n, i + 1);
      }
    } else if fs != [] {
      assert Lowest(r, ss, fs, n, 0);
    }
  }

  /** No failure condition has failed before tick t. */
  ghost predicate UnfailedBefore(r: Rules, vs: seq<Sight>, t: nat)
    requires t <= |vs| + 1
  {
    forall u, i :: 1 <= u < t && 0 <= i < |r.failures| ==> !FailsOn(r, vs, r.failures[i], u)
  }

  /** Condition i is the lowest to fail on tick t, and none failed before. */
  ghost predicate FailsFirst(r: Rules, vs: seq<Sight>, i: int, t: nat)
    requires t <= |vs|
  {
    && 0 <= i < |r.failures| && FailsOn(r, vs, r.failures[i], t) && UnfailedBefore(r, vs, t)
    && (forall j :: 0 <= j < i ==> !FailsOn(r, vs, r.failures[j], t))
  }

  /** The game is lost on tick t to condition i, which fails first, unless all victory ticks have passed before. */
  ghost predicate LosesOn(r: Rules, vs: seq<Sight>, i: int, t: nat)
    requires t <= |vs|
  {
    FailsFirst(r, vs, i, t) && (r.victories == [] || exists v :: v in r.victories && t <= v.atTick)
  }

  /** All victory ticks have come by tick n, and whatever failed did so after the last of them. */
  ghost predicate WinsBy(r: Rules, vs: seq<Sight>, n: nat)
    requires n <= |vs|
  {
    && r.victories != [] && (forall v :: v in r.victories ==> v.atTick <= n)
    && forall t, i :: 1 <= t <= n && 0 <= i < |r.failures| && FailsOn(r, vs, r.failures[i], t) ==> forall v :: v in r.victories ==> v.atTick < t
  }

  lemma LastVictoryMeans(victories: seq<Victory>, t: nat)
    ensures (forall v :: v in victories ==> v.atTick <= t) <==> victories == [] || LastVictory(victories) <= t
    ensures victories != [] ==> ((exists v :: v in victories && t <= v.atTick) <==> t <= LastVictory(victories))
    ensures victories != [] ==> ((forall v :: v in victories ==> v.atTick < t) <==> LastVictory(victories) < t)
  {
    var last := LastVictory(victories);
    hide LastVictory;
    if victories != [] {
      var i :| 0 <= i < |victories| && victories[i].atTick == last;
      assert victories[i] in victories;
    }
  }

  /** The first tick up to n on which a condition fails, and the lowest that does, as the engine finds them. */
  ghost predicate FirstIs(r: Rules, vs: seq<Sight>, ss: seq<Snapshot>, n: nat, f: Option<nat>)
    requires n <= |vs| == |ss| <= U64_MAX
  {
    match f
    case None => UnfailedBefore(r, vs, n + 1)
    case Some(t) => 1 <= t <= n && exists i :: FailsFirst(r, vs, i, t) && LowestFailing(r, ss, r.failures, t) == Some(r.failures[i].id)
  }

  lemma FirstMeans(r: Rules, vs: seq<Sight>, ss: seq<Snapshot>, n: nat)
    requires AllShow(r, vs, ss) && n <= |vs|
    ensures FirstIs(r, vs, ss, n, FirstFailure(r, ss, n))
  {
    var f := FirstFailure(r, ss, n);
    assert |ss| <= U64_MAX && |vs| == |ss|;
    hide AllShow, FailsOn, Fails, LowestFailing, FirstFailure, Lowest;
    forall u, i | 1 <= u < (if f.Some? then f.value else n + 1) && 0 <= i < |r.failures| ensures !FailsOn(r, vs, r.failures[i], u) {
      assert LowestFailing(r, ss, r.failures, u).None?;
      LowestMeans(r, ss, r.failures, u);
      FailsMeans(r, vs, ss, r.failures[i], u);
    }
    if f.Some? {
      LowestMeans(r, ss, r.failures, f.value);
      var i :| Lowest(r, ss, r.failures, f.value, i) && r.failures[i].id == LowestFailing(r, ss, r.failures, f.value).value;
      LowestIs(r, vs, ss, f.value, i);
      assert FailsFirst(r, vs, i, f.value);
    }
  }

  lemma LowestIs(r: Rules, vs: seq<Sight>, ss: seq<Snapshot>, n: nat, i: int)
    requires AllShow(r, vs, ss) && n <= |vs| && Lowest(r, ss, r.failures, n, i)
    ensures FailsOn(r, vs, r.failures[i], n) && forall j :: 0 <= j < i ==> !FailsOn(r, vs, r.failures[j], n)
  {
    assert |ss| <= U64_MAX && |vs| == |ss|;
    hide AllShow, FailsOn, Fails;
    forall j | 0 <= j <= i ensures Fails(r, ss, r.failures[j], n) <==> FailsOn(r, vs, r.failures[j], n) { FailsMeans(r, vs, ss, r.failures[j], n); }
  }

  /** Which condition fails first, and on which tick, is settled. */
  lemma FirstUnique(r: Rules, vs: seq<Sight>, i: int, t: nat, j: int, u: nat)
    requires 1 <= t <= |vs| && 1 <= u <= |vs| && FailsFirst(r, vs, i, t) && FailsFirst(r, vs, j, u)
    ensures i == j && t == u
  {
    hide FailsOn;
  }

  lemma NoneFailsAt(r: Rules, vs: seq<Sight>, f: Failure)
    ensures !FailsOn(r, vs, f, 0)
  {
  }

  /**
   * After every tick n of every run: the game is lost to a failure condition exactly if, on the first tick on which
   * any had held for more consecutive ticks than its grace, it was the lowest such, and not all victory ticks had
   * passed before; it is won exactly if all victory ticks have come and whatever failed did so after the last of them.
   */
  lemma OutcomeTold(r: Rules, vs: seq<Sight>, ss: seq<Snapshot>, n: nat)
    requires RulesOk(r) && AllShow(r, vs, ss) && n <= |vs|
    ensures var o := GoalsAt(r, ss, n).outcome;
      && (forall id :: o == Lost(id) <==> exists t: nat, i :: t <= n && LosesOn(r, vs, i, t) && r.failures[i].id == id)
      && (o == Won <==> WinsBy(r, vs, n))
  {
    OutcomeIsHistory(r, ss, n);
    FirstMeans(r, vs, ss, n);
    var f, o := FirstFailure(r, ss, n), GoalsAt(r, ss, n).outcome;
    assert |ss| <= U64_MAX && |vs| == |ss|;
    hide AllShow, RulesOk, FailsOn, Fails, LowestFailing, FirstFailure, LastVictory, GoalsAt;
    LastVictoryMeans(r.victories, n);
    forall g { NoneFailsAt(r, vs, g); }
    if f.Some? {
      LastVictoryMeans(r.victories, f.value);
      var i :| FailsFirst(r, vs, i, f.value) && LowestFailing(r, ss, r.failures, f.value) == Some(r.failures[i].id);
      forall t: nat, j | t <= n && FailsFirst(r, vs, j, t) ensures j == i && t == f.value { FirstUnique(r, vs, i, f.value, j, t); }
      assert o.Lost? ==> LosesOn(r, vs, i, f.value);
    } else {
      assert forall t: nat, j :: t <= n ==> !FailsFirst(r, vs, j, t);
    }
  }
}
