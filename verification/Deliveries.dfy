/** When deliveries happen, over every run: never late, and always for a start made from late. */
module Deliveries {
  import opened Base
  import opened Order
  import opened Sl1Scene
  import opened Plants
  import opened TransformLife
  import opened PlantRuns
  import opened TransformRuns
  import opened Turns

  // ---- Whatever is delivered was running, and comes in time ----

  /** Entry j of the history delivers for `def`. */
  ghost predicate Delivers(h: seq<Logged>, j: nat, def: Transform) {
    j < |h| && h[j].def == def && h[j].move.effect.Deliver?
  }

  /** An instance in state st before tick t delivers on it: `duration` ticks after its start, within its deadline. */
  predicate DueDelivery(def: Transform, st: TState, t: nat) {
    st.Running? && t == st.startedAt + def.duration <= st.scheduledAt + def.deadline
  }

  ghost predicate InTime(lay: Layout, ws: seq<Weather>, n: nat, def: Transform)
    requires n <= |ws| <= U64_MAX
  {
    forall j: nat :: Delivers(PlantAt(lay, ws, n).history, j, def) ==> Timely(lay, ws, n, PlantAt(lay, ws, n).history[j])
  }

  /** Entry e was made on a tick of the run so far, by an instance due to deliver then. */
  ghost predicate Timely(lay: Layout, ws: seq<Weather>, n: nat, e: Logged)
    requires n <= |ws| <= U64_MAX
  {
    1 <= e.tick <= n && DueDelivery(e.def, StateOf(PlantAt(lay, ws, e.tick - 1), e.def.id), e.tick)
  }

  /** Of the two moves of a tick only the first can deliver, and then its instance was due. */
  lemma DeliveringTurn(def: Transform, st: TState, r1: StartResult, r2: StartResult, now: u64, m: Move)
    requires TransformOk(def) && 0 < now < U64_MAX && PhaseOk(def, st, now - 1) && m.effect.Deliver?
    requires m == Advance(def, st, r1, now) || m == Trigger(def, Advance(def, st, r1, now).next, r2, now)
    ensures DueDelivery(def, st, now)
  {
    AdvanceOnce(def, st, r1, now);
    hide Advance, PhaseOk, TransformOk;
  }

  lemma DeliveryTimely(lay: Layout, ws: seq<Weather>, n: nat, i: nat, e: Logged)
    requires TransformsOk(lay.ts) && n <= |ws| < U64_MAX && i < |lay.ts|
    requires e in PlantAt(lay, ws, n).history && e.def == lay.ts[i] && e.move.effect.Deliver?
    ensures 1 <= e.tick <= n && DueDelivery(e.def, StateOf(PlantAt(lay, ws, e.tick - 1), e.def.id), e.tick)
  {
    hide *;
    var def, t := lay.ts[i], e.tick;
    Recorded(lay, ws, n, i, e);
    TurnTaken(lay, ws, t, i);
    PhaseOnRun(lay, ws, t - 1, i);
    DeliveringTurn(def, StateOf(PlantAt(lay, ws, t - 1), def.id), TryResult(def, lay.caps, ws[t - 1].quota, Turn(lay, ws, t, i)),
                   TryResult(def, lay.caps, ws[t - 1].quota, MidTurn(lay, ws, t, i)), t, e.move);
  }

  /** On every run, every delivery comes exactly `duration` ticks after its start and no later than schedule plus deadline. */
  lemma NothingLandsLate(lay: Layout, ws: seq<Weather>, n: nat, i: nat)
    requires TransformsOk(lay.ts) && n <= |ws| < U64_MAX && i < |lay.ts|
    ensures InTime(lay, ws, n, lay.ts[i])
  {
    hide PlantAt, StateOf, TransformsOk, DueDelivery;
    forall j: nat | Delivers(PlantAt(lay, ws, n).history, j, lay.ts[i]) ensures Timely(lay, ws, n, PlantAt(lay, ws, n).history[j]) {
      DeliveryTimely(lay, ws, n, i, PlantAt(lay, ws, n).history[j]);
    }
  }

  // ---- A start made from late always delivers ----

  lemma RetryTurn(def: Transform, st: TState, r1: StartResult, r2: StartResult, now: u64)
    requires TransformOk(def) && 0 < now < U64_MAX && PhaseOk(def, st, now - 1) && RetryRun(def, st)
    ensures var m := Advance(def, st, r1, now);
      if now == st.startedAt + def.duration then m == Move(Idle, Deliver, []) else Trigger(def, m.next, r2, now).next == st
  {
    RetryDelivers(def, st, r1, now);
    hide Advance, PhaseOk, TransformOk;
  }

  lemma RetryPhase(def: Transform, st: TState, now: nat)
    requires PhaseOk(def, st, now) && RetryRun(def, st)
    ensures st.Running? && now < st.startedAt + def.duration
  {
  }

  lemma RetryTick(lay: Layout, ws: seq<Weather>, i: nat, n: nat)
    requires TransformsOk(lay.ts) && 0 < n <= |ws| < U64_MAX && i < |lay.ts|
    requires RetryRun(lay.ts[i], StateOf(PlantAt(lay, ws, n - 1), lay.ts[i].id))
    ensures var def := lay.ts[i]; var st := StateOf(PlantAt(lay, ws, n - 1), def.id);
      && st.Running? && n <= st.startedAt + def.duration
      && if n == st.startedAt + def.duration then Logged(def, n, Move(Idle, Deliver, [])) in PlantAt(lay, ws, n).history
         else StateOf(PlantAt(lay, ws, n), def.id) == st
  {
    hide *;
    var def := lay.ts[i];
    var st := StateOf(PlantAt(lay, ws, n - 1), def.id);
    PhaseOnRun(lay, ws, n - 1, i);
    RetryPhase(def, st, n - 1);
    RunTurn(lay, ws, i, n);
    TurnTaken(lay, ws, n, i);
    RetryTurn(def, st, TryResult(def, lay.caps, ws[n - 1].quota, Turn(lay, ws, n, i)), TryResult(def, lay.caps, ws[n - 1].quota, MidTurn(lay, ws, n, i)), n);
  }

  lemma {:induction false} RetryFollowed(lay: Layout, ws: seq<Weather>, i: nat, s: nat, n: nat, st: TState)
    requires TransformsOk(lay.ts) && i < |lay.ts| && s <= n <= |ws| < U64_MAX && st.Running?
    requires st == StateOf(PlantAt(lay, ws, s), lay.ts[i].id) && RetryRun(lay.ts[i], st) && n < st.startedAt + lay.ts[i].duration
    ensures StateOf(PlantAt(lay, ws, n), lay.ts[i].id) == st
    decreases n
  {
    hide *;
    if n > s {
      RetryFollowed(lay, ws, i, s, n - 1, st);
      RetryTick(lay, ws, i, n);
    }
  }

  /** An instance running after a late start delivers on the tick `duration` after that start, whatever happens around it. */
  lemma RetryCompletes(lay: Layout, ws: seq<Weather>, i: nat, s: nat)
    requires TransformsOk(lay.ts) && i < |lay.ts| && s <= |ws| < U64_MAX
    requires RetryRun(lay.ts[i], StateOf(PlantAt(lay, ws, s), lay.ts[i].id))
    ensures var n := StateOf(PlantAt(lay, ws, s), lay.ts[i].id).startedAt + lay.ts[i].duration;
      s < n && (n <= |ws| ==> Logged(lay.ts[i], n, Move(Idle, Deliver, [])) in PlantAt(lay, ws, n).history)
  {
    hide *;
    var def := lay.ts[i];
    var st := StateOf(PlantAt(lay, ws, s), def.id);
    PhaseOnRun(lay, ws, s, i);
    RetryPhase(def, st, s);
    var n := st.startedAt + def.duration;
    if n <= |ws| {
      RetryFollowed(lay, ws, i, s, n - 1, st);
      RetryTick(lay, ws, i, n);
    }
  }
}
