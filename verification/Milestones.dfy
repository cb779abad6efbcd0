/** One-shot milestones: each fires on the first tick that qualifies, and only then. */
module Milestones {
  import opened Base
  import opened Order
  import opened Sl1Scene
  import opened Pressures
  import opened Boards

  const I64_MAX: int := 0x7FFF_FFFF_FFFF_FFFF
  type i64 = n: int | -I64_MAX - 1 <= n <= I64_MAX

  datatype Comparison = Gte | Lte | Above | Below {
    predicate Holds(observed: int, target: int) {
      match this
      case Gte => observed >= target
      case Lte => observed <= target
      case Above => observed > target
      case Below => observed < target
    }
  }

  datatype Trigger =
    | PressureActivated(pressure: Id)
    | PressureDeactivated(pressure: Id)
    | MetricThreshold(metric: Id, cmp: Comparison, value: i64)
    | DashboardShows(dashboard: Id, shown: string)
  /** `focus` and `highlight` are for the viewer; the engine only carries them. */
  datatype Milestone = Milestone(id: Id, trigger: Trigger, focus: seq<Id>, highlight: Option<Id>)
  datatype MilestoneState = MilestoneState(firedAt: Option<u64>, armed: bool)
  datatype Fired = Fired(id: Id, tick: u64)
  datatype MilestonesState = MilestonesState(states: map<Id, MilestoneState>, events: seq<Fired>)

  /** What a milestone looks at, after everything else has run. */
  datatype Seen = Seen(active: set<Id>, metrics: map<Id, MetricState>, dashboards: map<Id, BoardStatus>)

  function MilestoneKey(m: Milestone): string { m.id }

  /** The threshold is signed and the reading is not: a reading past the signed range is above any threshold. */
  predicate Reaches(cmp: Comparison, observed: u64, value: i64)
    ensures Reaches(cmp, observed, value) <==> cmp.Holds(observed, value)
  {
    if observed > I64_MAX then cmp.Gte? || cmp.Above? else cmp.Holds(observed as i64, value)
  }

  predicate Satisfied(t: Trigger, v: Seen) {
    match t
    case PressureActivated(p) => p in v.active
    case PressureDeactivated(p) => p !in v.active
    case MetricThreshold(metric, cmp, value) =>
      metric in v.metrics && v.metrics[metric].Value? && Reaches(cmp, v.metrics[metric].value, value)
    case DashboardShows(d, shown) => d in v.dashboards && v.dashboards[d].Label() == shown
  }

  function Next(t: Trigger, st: MilestoneState, v: Seen, now: u64): MilestoneState {
    if st.firedAt.Some? then st
    else if t.PressureDeactivated? && !st.armed then st.(armed := t.pressure in v.active)
    else if Satisfied(t, v) then st.(firedAt := Some(now))
    else st
  }

  function StateOf(s: MilestonesState, id: Id): MilestoneState {
    if id in s.states then s.states[id] else MilestoneState(None, false)
  }

  function Judge(m: Milestone, s: MilestonesState, v: Seen, now: u64): MilestonesState {
    var was := StateOf(s, m.id);
    var next := Next(m.trigger, was, v, now);
    s.(states := s.states[m.id := next],
       events := if was.firedAt.None? && next.firedAt.Some? then s.events + [Fired(m.id, now)] else s.events)
  }

  function JudgeFirst(ms: seq<Milestone>, k: nat, s: MilestonesState, v: Seen, now: u64): MilestonesState
    requires k <= |ms|
  {
    if k == 0 then s else Judge(ms[k - 1], JudgeFirst(ms, k - 1, s, v, now), v, now)
  }

  function MilestoneTick(ms: seq<Milestone>, s: MilestonesState, v: Seen, now: u64): MilestonesState {
    JudgeFirst(ms, |ms|, s, v, now)
  }

  function FreshMilestones(ms: seq<Milestone>): MilestonesState {
    MilestonesState(map m | m in ms :: m.id := MilestoneState(None, Eager(ms, m.id)), [])
  }

  /** Every kind of trigger is armed from the start but the one that waits for a pressure to end. */
  predicate Eager(ms: seq<Milestone>, id: Id) {
    forall m :: m in ms && m.id == id ==> !m.trigger.PressureDeactivated?
  }

  // ---- Runs ----

  function MilestonesAt(ms: seq<Milestone>, vs: seq<Seen>, n: nat): MilestonesState
    requires n <= |vs| <= U64_MAX
  {
    if n == 0 then FreshMilestones(ms) else MilestoneTick(ms, MilestonesAt(ms, vs, n - 1), vs[n - 1], n)
  }

  predicate ActiveOn(vs: seq<Seen>, pressure: Id, k: nat) {
    1 <= k <= |vs| && pressure in vs[k - 1].active
  }

  /** The trigger, a deactivation in particular, has been waited for up to tick n. */
  predicate Armed(t: Trigger, vs: seq<Seen>, n: nat)
    requires n <= |vs|
  {
    !t.PressureDeactivated? || exists j :: 1 <= j <= n && ActiveOn(vs, t.pressure, j)
  }

  /** Tick n qualifies: the condition holds, and a deactivation follows an earlier activity. */
  predicate Qualifies(t: Trigger, vs: seq<Seen>, n: nat)
    requires n <= |vs|
  {
    n > 0 && Satisfied(t, vs[n - 1]) && Armed(t, vs, n - 1)
  }

  function FirstQualifying(t: Trigger, vs: seq<Seen>, n: nat): (r: Option<u64>)
    requires n <= |vs| <= U64_MAX
    ensures r.None? ==> forall k :: 0 <= k <= n ==> !Qualifies(t, vs, k)
    ensures r.Some? ==> 1 <= r.value <= n && Qualifies(t, vs, r.value) && forall k :: 0 <= k < r.value ==> !Qualifies(t, vs, k)
  {
    if n == 0 then None
    else
      var before := FirstQualifying(t, vs, n - 1);
      if before.Some? then before else if Qualifies(t, vs, n) then Some(n) else None
  }

  function LogOf(es: seq<Fired>, id: Id): seq<Fired> {
    if es == [] then []
    else LogOf(es[..|es| - 1], id) + if es[|es| - 1].id == id then [es[|es| - 1]] else []
  }

  function LogFor(id: Id, firedAt: Option<u64>): seq<Fired> {
    match firedAt case None => [] case Some(t) => [Fired(id, t)]
  }

  lemma MilestoneIdsDiffer(ms: seq<Milestone>, i: nat, j: nat)
    requires SortedBy(ms, MilestoneKey) && i < |ms| && j < |ms|
    ensures ms[i].id == ms[j].id <==> i == j
  {
    if ms[i].id == ms[j].id { SortedDistinct(ms, MilestoneKey, i, j); }
  }

  lemma JudgeOne(m: Milestone, s: MilestonesState, v: Seen, now: u64, id: Id)
    ensures var r := Judge(m, s, v, now); var next := Next(m.trigger, StateOf(s, id), v, now);
      && StateOf(r, id) == (if m.id == id then next else StateOf(s, id))
      && LogOf(r.events, id) == LogOf(s.events, id)
           + (if m.id == id && StateOf(s, id).firedAt.None? then LogFor(id, next.firedAt) else [])
  {
    assert (s.events + [Fired(m.id, now)])[..|s.events|] == s.events;
  }

  lemma {:induction false} JudgedFirst(ms: seq<Milestone>, k: nat, i: nat, s: MilestonesState, v: Seen, now: u64)
    requires SortedBy(ms, MilestoneKey) && k <= |ms| && i < |ms|
    ensures var r := JudgeFirst(ms, k, s, v, now); var id := ms[i].id; var next := Next(ms[i].trigger, StateOf(s, id), v, now);
      && StateOf(r, id) == (if i < k then next else StateOf(s, id))
      && LogOf(r.events, id) == LogOf(s.events, id)
           + (if i < k && StateOf(s, id).firedAt.None? then LogFor(id, next.firedAt) else [])
  {
    hide Judge, LogOf, LogFor, Next, StateOf;
    if k > 0 {
      JudgedFirst(ms, k - 1, i, s, v, now);
      MilestoneIdsDiffer(ms, i, k - 1);
      JudgeOne(ms[k - 1], JudgeFirst(ms, k - 1, s, v, now), v, now, ms[i].id);
    }
  }

  /** What the trigger alone makes of a tick, given what it made of the ticks before. */
  lemma NextFollows(t: Trigger, vs: seq<Seen>, n: nat)
    requires 0 < n <= |vs| <= U64_MAX
    requires FirstQualifying(t, vs, n - 1).None?
    ensures Next(t, MilestoneState(None, Armed(t, vs, n - 1)), vs[n - 1], n).firedAt == FirstQualifying(t, vs, n)
    ensures FirstQualifying(t, vs, n).None? ==> Next(t, MilestoneState(None, Armed(t, vs, n - 1)), vs[n - 1], n).armed == Armed(t, vs, n)
  {
    assert t.PressureDeactivated? ==> (ActiveOn(vs, t.pressure, n) <==> t.pressure in vs[n - 1].active);
    if t.PressureDeactivated? && !Armed(t, vs, n - 1) && Armed(t, vs, n) {
      var j :| 1 <= j <= n && ActiveOn(vs, t.pressure, j);
      assert j == n;
    }
  }

  /** After tick n a milestone has fired on its first qualifying tick, if there was one, and logged that once. */
  lemma {:induction false} FiresOnceFirst(ms: seq<Milestone>, vs: seq<Seen>, n: nat, i: nat)
    requires SortedBy(ms, MilestoneKey) && n <= |vs| <= U64_MAX && i < |ms|
    ensures var s := MilestonesAt(ms, vs, n); var first := FirstQualifying(ms[i].trigger, vs, n);
      && StateOf(s, ms[i].id).firedAt == first
      && (first.None? ==> StateOf(s, ms[i].id).armed == Armed(ms[i].trigger, vs, n))
      && LogOf(s.events, ms[i].id) == LogFor(ms[i].id, first)
  {
    hide *;
    if n == 0 {
      FreshMilestone(ms, vs, i);
    } else {
      FiresOnceFirst(ms, vs, n - 1, i);
      MilestoneStep(ms, vs, n, i);
    }
  }

  lemma FreshMilestone(ms: seq<Milestone>, vs: seq<Seen>, i: nat)
    requires SortedBy(ms, MilestoneKey) && |vs| <= U64_MAX && i < |ms|
    ensures var s := MilestonesAt(ms, vs, 0); var first := FirstQualifying(ms[i].trigger, vs, 0);
      && StateOf(s, ms[i].id).firedAt == first
      && (first.None? ==> StateOf(s, ms[i].id).armed == Armed(ms[i].trigger, vs, 0))
      && LogOf(s.events, ms[i].id) == LogFor(ms[i].id, first)
  {
    assert ms[i] in ms;
    forall m | m in ms && m.id == ms[i].id ensures m == ms[i] {
      var j :| 0 <= j < |ms| && ms[j] == m;
      MilestoneIdsDiffer(ms, i, j);
    }
  }

  lemma MilestoneStep(ms: seq<Milestone>, vs: seq<Seen>, n: nat, i: nat)
    requires SortedBy(ms, MilestoneKey) && 0 < n <= |vs| <= U64_MAX && i < |ms|
    requires var s := MilestonesAt(ms, vs, n - 1); var first := FirstQualifying(ms[i].trigger, vs, n - 1);
      && StateOf(s, ms[i].id).firedAt == first
      && (first.None? ==> StateOf(s, ms[i].id).armed == Armed(ms[i].trigger, vs, n - 1))
      && LogOf(s.events, ms[i].id) == LogFor(ms[i].id, first)
    ensures var s := MilestonesAt(ms, vs, n); var first := FirstQualifying(ms[i].trigger, vs, n);
      && StateOf(s, ms[i].id).firedAt == first
      && (first.None? ==> StateOf(s, ms[i].id).armed == Armed(ms[i].trigger, vs, n))
      && LogOf(s.events, ms[i].id) == LogFor(ms[i].id, first)
  {
    hide Satisfied, Armed, JudgeFirst, LogOf, Qualifies, SortedBy;
    JudgedFirst(ms, |ms|, i, MilestonesAt(ms, vs, n - 1), vs[n - 1], n);
    if FirstQualifying(ms[i].trigger, vs, n - 1).None? {
      NextFollows(ms[i].trigger, vs, n);
    }
  }

  // ---- Together with the pressures ----

  /** The views of a run whose pressures are those of the scene. */
  ghost predicate ShowsPressures(ps: seq<Pressure>, vs: seq<Seen>) {
    |vs| <= U64_MAX && forall k :: 1 <= k <= |vs| ==> vs[k - 1].active == PressureAt(ps, k).active.Keys
  }

  lemma ActiveInWindow(ps: seq<Pressure>, vs: seq<Seen>, p: Pressure, k: nat)
    requires PressuresOk(ps) && ShowsPressures(ps, vs) && p in ps && 1 <= k <= |vs|
    ensures ActiveOn(vs, p.id, k) <==> First(p) <= k < p.EndTick()
    ensures p.EndTick() == p.atTick + p.duration
  {
    PressureClosedForm(ps, k);
    assert PressureOk(p);
  }

  /**
   * A milestone on the end of a pressure fires exactly at the end tick of that pressure, and never if no tick
   * sees the pressure active; one on its start fires on the first tick that sees it.
   */
  lemma PressureMilestones(ps: seq<Pressure>, vs: seq<Seen>, p: Pressure, n: nat)
    requires PressuresOk(ps) && ShowsPressures(ps, vs) && p in ps && n <= |vs|
    ensures FirstQualifying(PressureDeactivated(p.id), vs, n) == if First(p) < p.EndTick() <= n then Some(p.EndTick()) else None
    ensures FirstQualifying(PressureActivated(p.id), vs, n) == if First(p) <= n && First(p) < p.EndTick() then Some(First(p)) else None
  {
    forall k: nat | 1 <= k <= |vs| ensures ActiveOn(vs, p.id, k) <==> First(p) <= k < p.EndTick() {
      ActiveInWindow(ps, vs, p, k);
    }
    hide ShowsPressures, PressuresOk;
    QualifyingTicks(p, vs, n);
  }

  lemma QualifyingTicks(p: Pressure, vs: seq<Seen>, n: nat)
    requires n <= |vs| <= U64_MAX && First(p) <= U64_MAX
    requires forall k: nat :: 1 <= k <= |vs| ==> (ActiveOn(vs, p.id, k) <==> First(p) <= k < p.EndTick())
    ensures FirstQualifying(PressureDeactivated(p.id), vs, n) == if First(p) < p.EndTick() <= n then Some(p.EndTick()) else None
    ensures FirstQualifying(PressureActivated(p.id), vs, n) == if First(p) <= n && First(p) < p.EndTick() then Some(First(p)) else None
  {
    var off, on := PressureDeactivated(p.id), PressureActivated(p.id);
    forall k | 0 <= k <= n ensures Qualifies(off, vs, k) <==> First(p) < p.EndTick() <= k {
      assert k > 0 ==> (ActiveOn(vs, p.id, k) <==> p.id in vs[k - 1].active);
      if First(p) < p.EndTick() <= k {
        assert ActiveOn(vs, p.id, First(p));
      }
    }
    forall k | 0 <= k <= n ensures Qualifies(on, vs, k) <==> First(p) <= k < p.EndTick() {
      assert k > 0 ==> (ActiveOn(vs, p.id, k) <==> p.id in vs[k - 1].active);
    }
  }
}
