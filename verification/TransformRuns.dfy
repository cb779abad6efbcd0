/** Every scheduled instance, over every run of the plant: counted once, and over in bounded time. */
module TransformRuns {
  import opened Base
  import opened Order
  import opened Sl1Scene
  import opened Plants
  import opened TransformLife
  import opened PlantRuns

  /** How often transform `id` has been reported late since its last instance ended. */
  function LatesOpen(h: seq<Logged>, id: Id): nat {
    if h == [] then 0
    else
      var e, before := h[|h| - 1], LatesOpen(h[..|h| - 1], id);
      if e.def.id != id then before
      else if Ends(e.move) then 0
      else before + if Warns(e.move, LateWarning) then 1 else 0
  }

  lemma LatesMore(h: seq<Logged>, e: Logged)
    ensures forall id :: (LatesOpen(h + [e], id) == if e.def.id != id then LatesOpen(h, id)
      else if Ends(e.move) then 0 else LatesOpen(h, id) + if Warns(e.move, LateWarning) then 1 else 0)
  {
    assert (h + [e])[..|h|] == h;
  }

  /**
   * Every cadence slot so far is a delivery, a failure, a missed slot, or the instance in flight; every start
   * has delivered, was aborted at its deadline, or is still running; and the instance in flight has been
   * reported late once if it has gone late, and otherwise not at all.
   */
  ghost predicate Counted(def: Transform, h: seq<Logged>, st: TState, slots: nat) {
    && slots == Tally(h, def.id, Deliveries) + Tally(h, def.id, Failures) + Tally(h, def.id, Misses) + (if st.Idle? then 0 else 1)
    && Tally(h, def.id, Starts) == Tally(h, def.id, Deliveries) + Tally(h, def.id, Aborts) + (if st.Running? then 1 else 0)
    && LatesOpen(h, def.id) == if GoneLate(st) then 1 else 0
  }

  ghost predicate LifeOk(def: Transform, p: Plant, now: nat)
    requires def.cadence > 0
  {
    PhaseOk(def, StateOf(p, def.id), now) && Counted(def, p.history, StateOf(p, def.id), now / def.cadence)
  }

  lemma NextSlot(n: nat, c: nat)
    requires n > 0 && c > 0
    ensures n / c == (n - 1) / c + if n % c == 0 then 1 else 0
  {
    var q, r := (n - 1) / c, (n - 1) % c;
    assert n - 1 == q * c + r;
    if r + 1 < c {
      Quotient(n, q, r + 1, c);
    } else {
      assert n == (q + 1) * c;
      Quotient(n, q + 1, 0, c);
    }
  }

  /** Both phases of a tick for one transform, seen on its own state and its own tallies. */
  lemma LifeStep(def: Transform, p: Plant, r1: StartResult, r2: StartResult, now: u64)
    requires TransformOk(def) && 0 < now < U64_MAX && LifeOk(def, p, now - 1)
    ensures var p1 := Step(def, p, Advance(def, StateOf(p, def.id), r1, now), now);
      LifeOk(def, Step(def, p1, Trigger(def, StateOf(p1, def.id), r2, now), now), now)
  {
    var st := StateOf(p, def.id);
    var m1 := Advance(def, st, r1, now);
    var p1 := Step(def, p, m1, now);
    var m2 := Trigger(def, m1.next, r2, now);
    AdvanceOnce(def, st, r1, now);
    TriggerOnce(def, m1.next, r2, now);
    NextSlot(now, def.cadence);
    AdvanceCounts(def, p.history, st, r1, now, (now - 1) / def.cadence);
    TriggerCounts(def, p1.history, m1.next, r2, now, (now - 1) / def.cadence);
  }

  /** How one move changes the tallies, told from the states before and after it. */
  ghost predicate Balances(st: TState, m: Move, more: nat) {
    && more + Count(!st.Idle?) == Count(m.effect.Deliver?) + Count(Warns(m, FailedWarning)) + Count(Warns(m, SlotMissed)) + Count(!m.next.Idle?)
    && Count(st.Running?) + Count(m.effect.Take?) == Count(m.next.Running?) + Count(m.effect.Deliver?) + Count(m.effect.GiveBack?)
    && Count(GoneLate(m.next)) == if Ends(m) then 0 else Count(GoneLate(st)) + Count(Warns(m, LateWarning))
  }

  lemma CountedMore(def: Transform, h: seq<Logged>, st: TState, slots: nat, m: Move, more: nat, now: u64)
    requires Counted(def, h, st, slots) && Balances(st, m, more)
    ensures Counted(def, h + [Logged(def, now, m)], m.next, slots + more)
  {
    Append(h, Logged(def, now, m));
    LatesMore(h, Logged(def, now, m));
    hide GoneLate, Ends, Warns, Tally, LatesOpen;
  }

  lemma AdvanceBalances(def: Transform, st: TState, r: StartResult, now: u64)
    requires TransformOk(def) && 0 < now < U64_MAX && PhaseOk(def, st, now - 1)
    ensures Balances(st, Advance(def, st, r, now), 0)
  {
    AdvanceOnce(def, st, r, now);
    LateOnce(def, st, r, now);
    StartsOnce(def, st, r, now);
    hide Advance, PhaseOk, TransformOk, OpenedAt, Warns;
  }

  lemma AdvanceCounts(def: Transform, h: seq<Logged>, st: TState, r: StartResult, now: u64, slots: nat)
    requires TransformOk(def) && 0 < now < U64_MAX && PhaseOk(def, st, now - 1) && Counted(def, h, st, slots)
    ensures var m := Advance(def, st, r, now); Counted(def, h + [Logged(def, now, m)], m.next, slots)
  {
    hide *;
    AdvanceBalances(def, st, r, now);
    CountedMore(def, h, st, slots, Advance(def, st, r, now), 0, now);
  }

  lemma TriggerBalances(def: Transform, st: TState, r: StartResult, now: u64)
    requires TransformOk(def) && 0 < now < U64_MAX && PhaseOk(def, st, now)
    ensures Balances(st, Trigger(def, st, r, now), if CadenceFires(def, now) then 1 else 0)
  {
    TriggerOnce(def, st, r, now);
    TriggerNotLate(def, st, r, now);
    StartsOnce(def, st, r, now);
    hide Trigger, PhaseOk, TransformOk, OpenedAt, Warns, CadenceFires;
  }

  lemma TriggerCounts(def: Transform, h: seq<Logged>, st: TState, r: StartResult, now: u64, slots: nat)
    requires TransformOk(def) && 0 < now < U64_MAX && PhaseOk(def, st, now) && Counted(def, h, st, slots)
    ensures var m := Trigger(def, st, r, now);
      Counted(def, h + [Logged(def, now, m)], m.next, if CadenceFires(def, now) then slots + 1 else slots)
  {
    hide *;
    TriggerBalances(def, st, r, now);
    CountedMore(def, h, st, slots, Trigger(def, st, r, now), if CadenceFires(def, now) then 1 else 0, now);
  }

  lemma LifeProcessed(def: Transform, caps: Caps, quota: map<Bucket, nat>, p: Plant, now: u64)
    requires TransformOk(def) && 0 < now < U64_MAX && LifeOk(def, p, now - 1)
    ensures LifeOk(def, ProcessOne(def, caps, quota, p, now), now)
  {
    var p1 := Step(def, p, AdvanceMove(def, caps, quota, p, now), now);
    LifeStep(def, p, TryResult(def, caps, quota, p), TryResult(def, caps, quota, p1), now);
  }

  /** Processing one transform says nothing about another. */
  lemma OtherLife(def: Transform, other: Transform, caps: Caps, quota: map<Bucket, nat>, p: Plant, now: u64, t: nat)
    requires def.id != other.id && other.cadence > 0 && LifeOk(other, p, t)
    ensures LifeOk(other, ProcessOne(def, caps, quota, p, now), t)
  {
    hide PhaseOk, AdvanceMove, TriggerMove, AdjustAll, Stamp;
    var m1 := AdvanceMove(def, caps, quota, p, now);
    var p1 := Step(def, p, m1, now);
    Append(p.history, Logged(def, now, m1));
    Append(p1.history, Logged(def, now, TriggerMove(def, caps, quota, p1, now)));
    LatesMore(p.history, Logged(def, now, m1));
    LatesMore(p1.history, Logged(def, now, TriggerMove(def, caps, quota, p1, now)));
  }

  lemma TransformAt(ts: seq<Transform>, i: nat)
    requires TransformsOk(ts) && i < |ts|
    ensures TransformOk(ts[i]) && ts[i].cadence > 0
    ensures forall j :: 0 <= j < |ts| && j != i ==> ts[j].id != ts[i].id
  {
    forall j | 0 <= j < |ts| && j != i ensures ts[j].id != ts[i].id {
      if ts[j].id == ts[i].id { SortedDistinct(ts, TransformKey, i, j); }
    }
  }

  lemma {:induction false} LifeProcessedFirst(lay: Layout, k: nat, i: nat, quota: map<Bucket, nat>, p: Plant, now: u64)
    requires TransformsOk(lay.ts) && k <= |lay.ts| && i < |lay.ts| && 0 < now < U64_MAX
    requires lay.ts[i].cadence > 0 && LifeOk(lay.ts[i], p, now - 1)
    ensures LifeOk(lay.ts[i], ProcessFirst(lay.ts, k, lay.caps, quota, p, now), if i < k then now else now - 1)
  {
    hide *;
    if k > 0 {
      LifeProcessedFirst(lay, k - 1, i, quota, p, now);
      ProcessUnfold(lay, k - 1, quota, p, now);
      TransformAt(lay.ts, i);
      var before := ProcessFirst(lay.ts, k - 1, lay.caps, quota, p, now);
      if i == k - 1 {
        LifeProcessed(lay.ts[i], lay.caps, quota, before, now);
      } else {
        OtherLife(lay.ts[k - 1], lay.ts[i], lay.caps, quota, before, now, if i < k - 1 then now else now - 1);
      }
    } else {
      ProcessNone(lay, quota, p, now);
    }
  }

  /** On every run, each transform obeys its phase and every slot and start is accounted for. */
  lemma {:induction false} SlotsConserved(lay: Layout, ws: seq<Weather>, n: nat, i: nat)
    requires TransformsOk(lay.ts) && n <= |ws| < U64_MAX && i < |lay.ts|
    ensures lay.ts[i].cadence > 0
    ensures LifeOk(lay.ts[i], PlantAt(lay, ws, n), n)
  {
    hide *;
    TransformAt(lay.ts, i);
    if n == 0 {
      LifeBegins(lay, ws, i);
    } else {
      SlotsConserved(lay, ws, n - 1, i);
      BeforeTransforms(lay, ws, n, i);
      SameLife(lay.ts[i], PlantAt(lay, ws, n - 1), Prepared(lay, PlantAt(lay, ws, n - 1), ws[n - 1], n), n - 1);
      LifeProcessedFirst(lay, |lay.ts|, i, ws[n - 1].quota, Prepared(lay, PlantAt(lay, ws, n - 1), ws[n - 1], n), n);
    }
  }

  lemma LifeBegins(lay: Layout, ws: seq<Weather>, i: nat)
    requires |ws| < U64_MAX && i < |lay.ts| && lay.ts[i].cadence > 0
    ensures LifeOk(lay.ts[i], PlantAt(lay, ws, 0), 0)
  {
    assert 0 / lay.ts[i].cadence == 0;
  }

  lemma SameLife(def: Transform, p: Plant, p': Plant, now: nat)
    requires def.cadence > 0 && LifeOk(def, p, now) && StateOf(p, def.id) == StateOf(p', def.id) && p.history == p'.history
    ensures LifeOk(def, p', now)
  {
  }

  /** The plant after injection and ageing, as the transforms find it. */
  function Prepared(lay: Layout, p: Plant, w: Weather, now: u64): Plant {
    p.(inv := InjectAll(p.inv, lay.caps.storage, w.requests), stamps := Age(p.stamps, lay.budgets, now))
  }

  lemma BeforeTransforms(lay: Layout, ws: seq<Weather>, n: nat, i: nat)
    requires TransformsOk(lay.ts) && 0 < n <= |ws| < U64_MAX && i < |lay.ts|
    ensures var p := Prepared(lay, PlantAt(lay, ws, n - 1), ws[n - 1], n);
      && PlantAt(lay, ws, n) == ProcessFirst(lay.ts, |lay.ts|, lay.caps, ws[n - 1].quota, p, n)
      && StateOf(p, lay.ts[i].id) == StateOf(PlantAt(lay, ws, n - 1), lay.ts[i].id)
      && p.history == PlantAt(lay, ws, n - 1).history
  {
    hide ProcessFirst, InjectAll, Age, TransformsOk;
  }

  lemma PhaseOnRun(lay: Layout, ws: seq<Weather>, n: nat, i: nat)
    requires TransformsOk(lay.ts) && n <= |ws| < U64_MAX && i < |lay.ts|
    ensures TransformOk(lay.ts[i]) && PhaseOk(lay.ts[i], StateOf(PlantAt(lay, ws, n), lay.ts[i].id), n)
  {
    hide PlantAt, StateOf, PhaseOk, TransformOk, TransformsOk, Counted;
    TransformAt(lay.ts, i);
    SlotsConserved(lay, ws, n, i);
  }

  lemma HistoryKept(def: Transform, caps: Caps, quota: map<Bucket, nat>, p: Plant, now: u64)
    ensures p.history <= ProcessOne(def, caps, quota, p, now).history
  {
  }

  lemma {:induction false} HistoryFirst(lay: Layout, k: nat, quota: map<Bucket, nat>, p: Plant, now: u64)
    requires k <= |lay.ts|
    ensures p.history <= ProcessFirst(lay.ts, k, lay.caps, quota, p, now).history
  {
    hide *;
    if k > 0 {
      HistoryFirst(lay, k - 1, quota, p, now);
      ProcessUnfold(lay, k - 1, quota, p, now);
      HistoryKept(lay.ts[k - 1], lay.caps, quota, ProcessFirst(lay.ts, k - 1, lay.caps, quota, p, now), now);
    } else {
      ProcessNone(lay, quota, p, now);
    }
  }

  /** A tick adds to the history and takes nothing from it. */
  lemma HistoryGrows(lay: Layout, ws: seq<Weather>, n: nat)
    requires 0 < n <= |ws| <= U64_MAX
    ensures PlantAt(lay, ws, n - 1).history <= PlantAt(lay, ws, n).history
  {
    var p := Prepared(lay, PlantAt(lay, ws, n - 1), ws[n - 1], n);
    assert PlantAt(lay, ws, n) == ProcessFirst(lay.ts, |lay.ts|, lay.caps, ws[n - 1].quota, p, n);
    hide PlantAt, ProcessFirst;
    HistoryFirst(lay, |lay.ts|, ws[n - 1].quota, p, n);
  }
}
