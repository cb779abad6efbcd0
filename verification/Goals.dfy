/** Objectives, failure conditions, victory conditions, and the outcome they settle. */
module Goals {
  import opened Base
  import opened Order
  import opened Sl1Scene
  import opened Plants

  datatype ObjectiveParams =
    | KeepFresh(place: Id, thing: Id, maxStale: u64)
    | CompleteJobs(demand: Id, maxMissed: u64)
    | MaintainUtilization(place: Id, bucket: Id, minPercent: nat, maxPercent: nat)
    | UnsupportedObjective
  datatype Objective = Objective(id: Id, params: ObjectiveParams)

  datatype FailureParams =
    | StaleTarget(place: Id, thing: Id, threshold: u64, grace: u64)
    | PlaceState(place: Id, state: Id, grace: u64)
    | BreachCount(objective: Id, maxCount: u64)
  datatype Failure = Failure(id: Id, params: FailureParams)
  datatype Victory = Victory(id: Id, atTick: u64)

  function ObjectiveKey(o: Objective): string { o.id }
  function FailureKey(f: Failure): string { f.id }
  function VictoryKey(v: Victory): string { v.id }

  datatype Rules = Rules(places: seq<Place>, objectives: seq<Objective>, failures: seq<Failure>, victories: seq<Victory>)

  datatype Status = Unknown | Met | Breached | Unsupported
  datatype ObjectiveState = ObjectiveState(status: Status, breaches: u64, lastChange: u64)
  datatype FailureState = FailureState(streak: u64, firedAt: Option<u64>)
  datatype Outcome = InProgress | Won | Lost(failure: Id)
  datatype Phase = Stabilizing | Winning | Losing | Spiraling | PhaseWon | PhaseLost

  datatype GoalEvent =
    | ObjectiveChanged(id: Id, from: Status, to: Status, tick: u64)
    | NotSupported(id: Id, tick: u64)
    | FailureFired(id: Id, tick: u64)
    | VictoryMet(id: Id, tick: u64)
    | OutcomeChanged(outcome: Outcome, tick: u64)

  datatype GoalState = GoalState(
    objectives: map<Id, ObjectiveState>, failures: map<Id, FailureState>, victories: map<Id, Option<u64>>,
    outcome: Outcome, phase: Phase, warned: set<Id>, events: seq<GoalEvent>)

  /** What the rest of the tick has left for the goals to look at. */
  datatype Snapshot = Snapshot(stamps: map<Slot, Freshness>, used: map<Bucket, u64>, dropped: map<Id, u64>)

  // ---- Predicates over one snapshot ----

  function Tag(stamps: map<Slot, Freshness>, s: Slot): Freshness {
    if s in stamps then stamps[s] else NoData
  }

  /** True when the slot has no observation at all, or its last one is older than `limit`. */
  predicate OlderThan(f: Freshness, limit: u64, now: u64) {
    if f.Ok? || f.Stale? then SatSub(now, f.lastSet) > limit else true
  }

  function UsedPercent(used: u64, cap: u64): (p: nat)
    requires cap > 0
    ensures p <= 100 && (p == 100 <==> used >= cap)
  {
    var part := Min(used, cap) * 100;
    assert part <= 100 * cap && (part == 100 * cap <==> used >= cap);
    Floor(part, cap);
    part / cap
  }

  lemma Floor(part: nat, cap: nat)
    requires cap > 0 && part <= 100 * cap
    ensures part / cap <= 100 && (part / cap == 100 <==> part == 100 * cap)
  {
    if part == 100 * cap {
      Quotient(part, 100, 0, cap);
    } else {
      var q := part / cap;
      assert part == q * cap + part % cap;
      assert (100 - q) * cap == 100 * cap - q * cap;
    }
  }

  function FindPlace(places: seq<Place>, id: Id): (r: Option<Place>)
    ensures r.Some? ==> r.value in places && r.value.id == id
    ensures r.None? ==> forall p :: p in places ==> p.id != id
  {
    if places == [] then None else if places[0].id == id then Some(places[0]) else FindPlace(places[1..], id)
  }

  function BaseCapacity(places: seq<Place>, place: Id, bucket: Id): u64 {
    match FindPlace(places, place)
    case Some(p) => Get(p.capacity, bucket)
    case None => 0
  }

  function Percent(places: seq<Place>, used: map<Bucket, u64>, place: Id, bucket: Id): (p: nat)
    ensures p <= 100
  {
    var cap := BaseCapacity(places, place, bucket);
    if cap == 0 then 0 else UsedPercent(Get(used, (place, bucket)), cap)
  }

  function Evaluate(r: Rules, o: Objective, s: Snapshot, now: u64): Status {
    match o.params
    case KeepFresh(place, thing, maxStale) => if OlderThan(Tag(s.stamps, (place, thing)), maxStale, now) then Breached else Met
    case CompleteJobs(demand, maxMissed) => if Get(s.dropped, demand) <= maxMissed then Met else Breached
    case MaintainUtilization(place, bucket, min, max) =>
      // A bucket without capacity counts as 0% used, and then only the lower bound is looked at.
      if BaseCapacity(r.places, place, bucket) == 0 then (if min == 0 then Met else Breached)
      else if min <= Percent(r.places, s.used, place, bucket) <= max then Met else Breached
    case UnsupportedObjective => Unsupported
  }

  function Grace(p: FailureParams): u64 {
    match p
    case StaleTarget(_, _, _, grace) => grace
    case PlaceState(_, _, grace) => grace
    case BreachCount(_, _) => 0
  }

  predicate Breaches(r: Rules, f: Failure, s: Snapshot, objectives: map<Id, ObjectiveState>, now: u64) {
    match f.params
    case StaleTarget(place, thing, threshold, _) => OlderThan(Tag(s.stamps, (place, thing)), threshold, now)
    case PlaceState(place, state, _) =>
      var p := FindPlace(r.places, place);
      p.Some? && state in p.value.states && p.value.states[state].UsedPercentGte?
      && Percent(r.places, s.used, place, p.value.states[state].bucket) >= p.value.states[state].threshold
    case BreachCount(objective, maxCount) => objective in objectives && objectives[objective].breaches > maxCount
  }

  // ---- One tick ----

  function ObjectiveOf(g: GoalState, id: Id): ObjectiveState {
    if id in g.objectives then g.objectives[id] else ObjectiveState(Unknown, 0, 0)
  }

  function FailureOf(g: GoalState, id: Id): FailureState {
    if id in g.failures then g.failures[id] else FailureState(0, None)
  }

  function VictoryOf(g: GoalState, id: Id): Option<u64> {
    if id in g.victories then g.victories[id] else None
  }

  function JudgeObjective(r: Rules, o: Objective, g: GoalState, s: Snapshot, now: u64): GoalState {
    var status := Evaluate(r, o, s, now);
    var was := ObjectiveOf(g, o.id);
    var mute := o.params.UnsupportedObjective? && o.id !in g.warned;
    var changed := was.status != status;
    var breaches := if status.Breached? then SatAdd(was.breaches, 1) else was.breaches;
    g.(objectives := g.objectives[o.id := ObjectiveState(status, breaches, if changed then now else was.lastChange)],
       warned := if mute then g.warned + {o.id} else g.warned,
       events := g.events + (if mute then [NotSupported(o.id, now)] else [])
                          + (if changed then [ObjectiveChanged(o.id, was.status, status, now)] else []))
  }

  function JudgeFailure(r: Rules, f: Failure, g: GoalState, s: Snapshot, now: u64): GoalState {
    var was := FailureOf(g, f.id);
    var streak := if Breaches(r, f, s, g.objectives, now) then SatAdd(was.streak, 1) else 0;
    var fires := was.firedAt.None? && streak > Grace(f.params);
    g.(failures := g.failures[f.id := FailureState(streak, if fires then Some(now) else was.firedAt)],
       events := if fires then g.events + [FailureFired(f.id, now)] else g.events)
  }

  function JudgeVictory(v: Victory, g: GoalState, now: u64): GoalState {
    if now >= v.atTick && VictoryOf(g, v.id).None? then
      g.(victories := g.victories[v.id := Some(now)], events := g.events + [VictoryMet(v.id, now)])
    else g
  }

  function JudgeObjectives(r: Rules, k: nat, g: GoalState, s: Snapshot, now: u64): GoalState
    requires k <= |r.objectives|
  {
    if k == 0 then g else JudgeObjective(r, r.objectives[k - 1], JudgeObjectives(r, k - 1, g, s, now), s, now)
  }

  function JudgeFailures(r: Rules, k: nat, g: GoalState, s: Snapshot, now: u64): GoalState
    requires k <= |r.failures|
  {
    if k == 0 then g else JudgeFailure(r, r.failures[k - 1], JudgeFailures(r, k - 1, g, s, now), s, now)
  }

  function JudgeVictories(r: Rules, k: nat, g: GoalState, now: u64): GoalState
    requires k <= |r.victories|
  {
    if k == 0 then g else JudgeVictory(r.victories[k - 1], JudgeVictories(r, k - 1, g, now), now)
  }

  /** The first failure condition, in id order, that has ever fired. */
  function FirstFired(failures: seq<Failure>, g: GoalState): Option<Id> {
    if failures == [] then None
    else if FailureOf(g, failures[0].id).firedAt.Some? then Some(failures[0].id)
    else FirstFired(failures[1..], g)
  }

  predicate AllMet(victories: seq<Victory>, g: GoalState) {
    forall i :: 0 <= i < |victories| ==> VictoryOf(g, victories[i].id).Some?
  }

  function Settled(r: Rules, g: GoalState): Outcome {
    match FirstFired(r.failures, g)
    case Some(id) => Lost(id)
    case None => if r.victories != [] && AllMet(r.victories, g) then Won else InProgress
  }

  function Settle(r: Rules, g: GoalState, now: u64): GoalState {
    var outcome := Settled(r, g);
    if outcome == g.outcome then g else g.(outcome := outcome, events := g.events + [OutcomeChanged(outcome, now)])
  }

  predicate Gates(o: Objective) { !o.params.UnsupportedObjective? }

  function PhaseOf(r: Rules, g: GoalState): Phase {
    match g.outcome
    case Won => PhaseWon
    case Lost(_) => PhaseLost
    case InProgress =>
      if exists id :: id in g.failures && g.failures[id].streak > 0 then Spiraling
      else if exists id :: id in g.objectives && g.objectives[id].status.Breached? then Losing
      else if (exists i :: 0 <= i < |r.objectives| && Gates(r.objectives[i]))
           && forall i :: 0 <= i < |r.objectives| && Gates(r.objectives[i]) ==> ObjectiveOf(g, r.objectives[i].id).status.Met? then Winning
      else Stabilizing
  }

  /** All five steps of a tick, whether or not the game is over. */
  function Judge(r: Rules, g: GoalState, s: Snapshot, now: u64): GoalState {
    var g1 := JudgeObjectives(r, |r.objectives|, g, s, now);
    var g2 := JudgeFailures(r, |r.failures|, g1, s, now);
    var g3 := JudgeVictories(r, |r.victories|, g2, now);
    var g4 := Settle(r, g3, now);
    g4.(phase := PhaseOf(r, g4))
  }

  function GoalTick(r: Rules, g: GoalState, s: Snapshot, now: u64): GoalState {
    if g.outcome.InProgress? then Judge(r, g, s, now) else g
  }

  function FreshGoals(r: Rules): GoalState {
    GoalState(map o | o in r.objectives :: o.id := ObjectiveState(Unknown, 0, 0),
              map f | f in r.failures :: f.id := FailureState(0, None),
              map v | v in r.victories :: v.id := None,
              InProgress, Stabilizing, {}, [])
  }

  ghost predicate RulesOk(r: Rules) {
    && SortedBy(r.objectives, ObjectiveKey) && SortedBy(r.failures, FailureKey) && SortedBy(r.victories, VictoryKey)
    && forall i :: 0 <= i < |r.victories| ==> r.victories[i].atTick >= 1
  }
}
