/** The inventory ledger in closed form: stock from counts of starts and deliveries alone. */
module Ledger {
  import opened Base
  import opened Order
  import opened Sl1Scene
  import opened Plants
  import opened TransformLife
  import Reservations
  import opened PlantRuns

  datatype Side = Inputs | Outputs

  function ItemsOf(t: Transform, side: Side): seq<Item> { if side.Inputs? then t.inputs else t.outputs }
  function CountedAs(side: Side): What { if side.Inputs? then Starts else Deliveries }

  /** Units of `s` moved each time `t` starts, or delivers. */
  function PerTime(t: Transform, side: Side, s: Slot): nat {
    if t.runsOn == s.0 then AmountOf(ItemsOf(t, side), s.1) else 0
  }

  function Times(n: nat, units: nat): nat { n * units }

  /** Times started (delivered) times units each time, over all transforms. */
  function Total(ts: seq<Transform>, h: seq<Logged>, side: Side, s: Slot): nat {
    if ts == [] then 0
    else
      var t := ts[|ts| - 1];
      Total(ts[..|ts| - 1], h, side, s) + Times(Tally(h, t.id, CountedAs(side)), PerTime(t, side, s))
  }

  ghost predicate FromScene(ts: seq<Transform>, h: seq<Logged>) {
    forall i :: 0 <= i < |h| ==> h[i].def in ts
  }

  function MovedBy(e: Logged, side: Side, s: Slot): nat {
    if Marks(e.move, CountedAs(side)) then PerTime(e.def, side, s) else 0
  }

  lemma {:induction false} TotalEmpty(ts: seq<Transform>, side: Side, s: Slot)
    ensures Total(ts, [], side, s) == 0
  {
    if ts != [] {
      TotalEmpty(ts[..|ts| - 1], side, s);
      More(0, PerTime(ts[|ts| - 1], side, s));
    }
  }

  lemma {:induction false} TotalElsewhere(ts: seq<Transform>, h: seq<Logged>, e: Logged, side: Side, s: Slot)
    requires forall i :: 0 <= i < |ts| ==> ts[i].id != e.def.id
    ensures Total(ts, h + [e], side, s) == Total(ts, h, side, s)
  {
    if ts != [] {
      TotalElsewhere(ts[..|ts| - 1], h, e, side, s);
      Append(h, e);
    }
  }

  lemma More(n: nat, k: nat)
    ensures Times(n + 1, k) == Times(n, k) + k && Times(0, k) == 0
  {
  }

  lemma {:induction false} TotalMore(ts: seq<Transform>, h: seq<Logged>, e: Logged, side: Side, s: Slot)
    requires SortedBy(ts, TransformKey) && e.def in ts
    ensures Total(ts, h + [e], side, s) == Total(ts, h, side, s) + MovedBy(e, side, s)
  {
    var front, t := ts[..|ts| - 1], ts[|ts| - 1];
    Append(h, e);
    if t == e.def {
      forall i | 0 <= i < |front| ensures front[i].id != e.def.id {
        if front[i].id == e.def.id { SortedDistinct(ts, TransformKey, i, |ts| - 1); }
      }
      TotalElsewhere(front, h, e, side, s);
      More(Tally(h, t.id, CountedAs(side)), PerTime(t, side, s));
    } else {
      var i :| 0 <= i < |ts| && ts[i] == e.def;
      assert front[i] == e.def;
      if t.id == e.def.id { SortedDistinct(ts, TransformKey, i, |ts| - 1); }
      TotalMore(front, h, e, side, s);
    }
  }

  lemma {:induction false} TotalsAre(ts: seq<Transform>, h: seq<Logged>, s: Slot)
    requires SortedBy(ts, TransformKey) && FromScene(ts, h)
    ensures Consumed(h, s) == Total(ts, h, Inputs, s) && Produced(h, s) == Total(ts, h, Outputs, s)
  {
    if h == [] {
      TotalEmpty(ts, Inputs, s);
      TotalEmpty(ts, Outputs, s);
    } else {
      var before, e := h[..|h| - 1], h[|h| - 1];
      assert h == before + [e];
      TotalsAre(ts, before, s);
      TotalMore(ts, before, e, Inputs, s);
      TotalMore(ts, before, e, Outputs, s);
    }
  }

  // ---- On every run ----

  lemma OneFromScene(ts: seq<Transform>, k: nat, caps: Caps, quota: map<Bucket, nat>, p: Plant, now: u64)
    requires k < |ts| && FromScene(ts, p.history)
    ensures FromScene(ts, ProcessOne(ts[k], caps, quota, p, now).history)
  {
    assert ts[k] in ts;
    hide Advance, Trigger, TryResult;
  }

  lemma {:induction false} FirstFromScene(ts: seq<Transform>, k: nat, caps: Caps, quota: map<Bucket, nat>, p: Plant, now: u64)
    requires k <= |ts| && FromScene(ts, p.history)
    ensures FromScene(ts, ProcessFirst(ts, k, caps, quota, p, now).history)
  {
    hide ProcessOne, FromScene;
    if k > 0 {
      FirstFromScene(ts, k - 1, caps, quota, p, now);
      OneFromScene(ts, k - 1, caps, quota, ProcessFirst(ts, k - 1, caps, quota, p, now), now);
    }
  }

  lemma {:induction false} RunFromScene(lay: Layout, ws: seq<Weather>, n: nat)
    requires n <= |ws| <= U64_MAX
    ensures FromScene(lay.ts, PlantAt(lay, ws, n).history)
  {
    hide ProcessFirst, InjectAll, Age, FromScene;
    if n == 0 {
      NothingYet(lay);
    } else {
      RunFromScene(lay, ws, n - 1);
      var p, w := PlantAt(lay, ws, n - 1), ws[n - 1];
      var p1 := p.(inv := InjectAll(p.inv, lay.caps.storage, w.requests));
      var p2 := p1.(stamps := Age(p1.stamps, lay.budgets, n));
      FirstFromScene(lay.ts, |lay.ts|, lay.caps, w.quota, p2, n);
    }
  }

  lemma NothingYet(lay: Layout)
    ensures FromScene(lay.ts, Opening(lay).history)
  {
  }

  /**
   * For every storage slot, after every tick of every run: stock = initial + injected
   * + sum over transforms of (deliveries * output amount) - sum over transforms of (starts * input amount).
   */
  lemma LedgerBalances(lay: Layout, sources: set<Slot>, ws: seq<Weather>, n: nat, s: Slot)
    requires LayoutOk(lay, sources) && WeathersOk(ws, sources) && n <= |ws|
    ensures |ws| <= U64_MAX
    ensures var p := PlantAt(lay, ws, n);
      Get(p.inv, s) == Get(lay.initial, s) + Arrived(lay, ws, n, s) + Total(lay.ts, p.history, Outputs, s) - Total(lay.ts, p.history, Inputs, s)
  {
    PlantInvariant(lay, sources, ws, n);
    RunFromScene(lay, ws, n);
    TotalsAre(lay.ts, PlantAt(lay, ws, n).history, s);
    hide PlantAt, Total, Arrived, Consumed, Produced, TagsExact, KeysExact, Reservations.ReservedExactly, Reservations.WithinLimits;
  }
}
