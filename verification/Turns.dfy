/** What each transform does on its turn of each tick of a run: when it starts, why it waits, and when it fails. */
module Turns {
  import opened Base
  import opened Order
  import opened Sl1Scene
  import opened Pressures
  import opened Plants
  import opened TransformLife
  import opened PlantRuns
  import opened TransformRuns

  // ---- The two moves of a tick, found again in the history ----

  /** The entries about one transform. */
  function LogOf(h: seq<Logged>, id: Id): seq<Logged> {
    if h == [] then []
    else LogOf(h[..|h| - 1], id) + if h[|h| - 1].def.id == id then [h[|h| - 1]] else []
  }

  lemma LogMore(h: seq<Logged>, e: Logged, id: Id)
    ensures LogOf(h + [e], id) == LogOf(h, id) + if e.def.id == id then [e] else []
  {
    assert (h + [e])[..|h|] == h;
  }

  lemma {:induction false} LogHolds(h: seq<Logged>, e: Logged)
    requires e in h
    ensures e in LogOf(h, e.def.id)
  {
    if e in h[..|h| - 1] {
      LogHolds(h[..|h| - 1], e);
    } else {
      assert h == h[..|h| - 1] + [h[|h| - 1]];
    }
  }

  /** The plant as transform i finds it on tick n, and after its first move. */
  ghost function Turn(lay: Layout, ws: seq<Weather>, n: nat, i: nat): Plant
    requires 0 < n <= |ws| <= U64_MAX && i < |lay.ts|
  {
    ProcessFirst(lay.ts, i, lay.caps, ws[n - 1].quota, Prepared(lay, PlantAt(lay, ws, n - 1), ws[n - 1], n), n)
  }

  ghost function FirstMove(lay: Layout, ws: seq<Weather>, n: nat, i: nat): Move
    requires 0 < n <= |ws| <= U64_MAX && i < |lay.ts|
  {
    AdvanceMove(lay.ts[i], lay.caps, ws[n - 1].quota, Turn(lay, ws, n, i), n)
  }

  ghost function MidTurn(lay: Layout, ws: seq<Weather>, n: nat, i: nat): Plant
    requires 0 < n <= |ws| <= U64_MAX && i < |lay.ts|
  {
    Step(lay.ts[i], Turn(lay, ws, n, i), FirstMove(lay, ws, n, i), n)
  }

  ghost function SecondMove(lay: Layout, ws: seq<Weather>, n: nat, i: nat): Move
    requires 0 < n <= |ws| <= U64_MAX && i < |lay.ts|
  {
    TriggerMove(lay.ts[i], lay.caps, ws[n - 1].quota, MidTurn(lay, ws, n, i), n)
  }

  lemma OwnLog(def: Transform, caps: Caps, quota: map<Bucket, nat>, p: Plant, now: u64)
    ensures var m1 := AdvanceMove(def, caps, quota, p, now); var p1 := Step(def, p, m1, now); var m2 := TriggerMove(def, caps, quota, p1, now);
      var r := ProcessOne(def, caps, quota, p, now);
      StateOf(r, def.id) == m2.next && LogOf(r.history, def.id) == LogOf(p.history, def.id) + [Logged(def, now, m1), Logged(def, now, m2)]
  {
    hide AdjustAll, Stamp, Advance, Trigger, TryResult;
    var m1 := AdvanceMove(def, caps, quota, p, now);
    var p1 := Step(def, p, m1, now);
    LogMore(p.history, Logged(def, now, m1), def.id);
    LogMore(p1.history, Logged(def, now, TriggerMove(def, caps, quota, p1, now)), def.id);
  }

  lemma OtherLog(def: Transform, caps: Caps, quota: map<Bucket, nat>, p: Plant, now: u64, id: Id)
    requires def.id != id
    ensures var r := ProcessOne(def, caps, quota, p, now); StateOf(r, id) == StateOf(p, id) && LogOf(r.history, id) == LogOf(p.history, id)
  {
    hide AdjustAll, Stamp, Advance, Trigger, TryResult;
    var m1 := AdvanceMove(def, caps, quota, p, now);
    var p1 := Step(def, p, m1, now);
    LogMore(p.history, Logged(def, now, m1), id);
    LogMore(p1.history, Logged(def, now, TriggerMove(def, caps, quota, p1, now)), id);
  }

  /** The log and state of transform i once the first k have had their turns. */
  ghost predicate HadTurn(lay: Layout, k: nat, i: nat, quota: map<Bucket, nat>, p: Plant, now: u64)
    requires k <= |lay.ts| && i < |lay.ts|
  {
    var def, r := lay.ts[i], ProcessFirst(lay.ts, k, lay.caps, quota, p, now);
    if k <= i then StateOf(r, def.id) == StateOf(p, def.id) && LogOf(r.history, def.id) == LogOf(p.history, def.id)
    else
      var q := ProcessFirst(lay.ts, i, lay.caps, quota, p, now);
      var m1 := AdvanceMove(def, lay.caps, quota, q, now);
      var m2 := TriggerMove(def, lay.caps, quota, Step(def, q, m1, now), now);
      StateOf(r, def.id) == m2.next && LogOf(r.history, def.id) == LogOf(p.history, def.id) + [Logged(def, now, m1), Logged(def, now, m2)]
  }

  lemma {:induction false} TurnsFirst(lay: Layout, k: nat, i: nat, quota: map<Bucket, nat>, p: Plant, now: u64)
    requires TransformsOk(lay.ts) && k <= |lay.ts| && i < |lay.ts|
    ensures HadTurn(lay, k, i, quota, p, now)
  {
    hide ProcessFirst, ProcessOne, AdvanceMove, TriggerMove, LogOf, StateOf, Step, TransformsOk;
    if k == 0 {
      ProcessNone(lay, quota, p, now);
    } else {
      TurnsFirst(lay, k - 1, i, quota, p, now);
      ProcessUnfold(lay, k - 1, quota, p, now);
      TransformAt(lay.ts, i);
      var before := ProcessFirst(lay.ts, k - 1, lay.caps, quota, p, now);
      if i == k - 1 {
        OwnLog(lay.ts[i], lay.caps, quota, before, now);
      } else {
        OtherLog(lay.ts[k - 1], lay.caps, quota, before, now, lay.ts[i].id);
      }
    }
  }

  /** On tick n, transform i makes exactly its two moves, from the state it was left in and the stock it finds. */
  lemma TurnTaken(lay: Layout, ws: seq<Weather>, n: nat, i: nat)
    requires TransformsOk(lay.ts) && 0 < n <= |ws| < U64_MAX && i < |lay.ts|
    ensures var def := lay.ts[i]; var before, after := PlantAt(lay, ws, n - 1), PlantAt(lay, ws, n);
      var m1, m2 := FirstMove(lay, ws, n, i), SecondMove(lay, ws, n, i);
      && LogOf(after.history, def.id) == LogOf(before.history, def.id) + [Logged(def, n, m1), Logged(def, n, m2)]
      && StateOf(after, def.id) == m2.next
      && m1 == Advance(def, StateOf(before, def.id), TryResult(def, lay.caps, ws[n - 1].quota, Turn(lay, ws, n, i)), n)
      && m2 == Trigger(def, m1.next, TryResult(def, lay.caps, ws[n - 1].quota, MidTurn(lay, ws, n, i)), n)
  {
    var def, p := lay.ts[i], Prepared(lay, PlantAt(lay, ws, n - 1), ws[n - 1], n);
    BeforeTransforms(lay, ws, n, i);
    hide PlantAt, ProcessFirst, LogOf, Advance, Trigger, TryResult, AdjustAll, Stamp, TransformsOk, Prepared;
    TurnsFirst(lay, |lay.ts|, i, ws[n - 1].quota, p, n);
    TurnsFirst(lay, i, i, ws[n - 1].quota, p, n);
  }

  /** Every entry is one of the two moves of its tick. */
  ghost predicate Logs(lay: Layout, ws: seq<Weather>, n: nat, i: nat, log: seq<Logged>)
    requires n <= |ws| <= U64_MAX && i < |lay.ts|
  {
    forall e :: e in log ==>
      && e.def == lay.ts[i] && 1 <= e.tick <= n
      && (e.move == FirstMove(lay, ws, e.tick, i) || e.move == SecondMove(lay, ws, e.tick, i))
  }

  lemma LogsMore(lay: Layout, ws: seq<Weather>, n: nat, i: nat, log: seq<Logged>, log': seq<Logged>)
    requires 0 < n <= |ws| <= U64_MAX && i < |lay.ts| && Logs(lay, ws, n - 1, i, log)
    requires log' == log + [Logged(lay.ts[i], n, FirstMove(lay, ws, n, i)), Logged(lay.ts[i], n, SecondMove(lay, ws, n, i))]
    ensures Logs(lay, ws, n, i, log')
  {
    hide FirstMove, SecondMove;
  }

  lemma NothingLogged(lay: Layout, ws: seq<Weather>, i: nat)
    requires |ws| <= U64_MAX && i < |lay.ts|
    ensures Logs(lay, ws, 0, i, LogOf(PlantAt(lay, ws, 0).history, lay.ts[i].id))
  {
    assert PlantAt(lay, ws, 0).history == [];
  }

  lemma {:induction false} LogIs(lay: Layout, ws: seq<Weather>, n: nat, i: nat)
    requires TransformsOk(lay.ts) && n <= |ws| < U64_MAX && i < |lay.ts|
    ensures Logs(lay, ws, n, i, LogOf(PlantAt(lay, ws, n).history, lay.ts[i].id))
  {
    hide *;
    if n == 0 {
      NothingLogged(lay, ws, i);
    } else {
      LogIs(lay, ws, n - 1, i);
      TurnTaken(lay, ws, n, i);
      LogsMore(lay, ws, n, i, LogOf(PlantAt(lay, ws, n - 1).history, lay.ts[i].id), LogOf(PlantAt(lay, ws, n).history, lay.ts[i].id));
    }
  }

  /** Whatever is on record about a transform is one of its two moves of some tick so far. */
  lemma Recorded(lay: Layout, ws: seq<Weather>, n: nat, i: nat, e: Logged)
    requires TransformsOk(lay.ts) && n <= |ws| < U64_MAX && i < |lay.ts|
    requires e in PlantAt(lay, ws, n).history && e.def.id == lay.ts[i].id
    ensures e.def == lay.ts[i] && 1 <= e.tick <= n
    ensures e.move == FirstMove(lay, ws, e.tick, i) || e.move == SecondMove(lay, ws, e.tick, i)
  {
    hide PlantAt, FirstMove, SecondMove, LogOf, TransformsOk;
    LogHolds(PlantAt(lay, ws, n).history, e);
    LogIs(lay, ws, n, i);
  }

  // ---- Why a transform starts or waits ----

  /** Every input is in stock where the transform runs. */
  ghost predicate CanFeed(def: Transform, p: Plant) {
    forall thing :: AmountOf(def.inputs, thing) <= Get(p.inv, (def.runsOn, thing))
  }

  /** Its cost fits what pressure leaves of each bucket, and its output fits each slot beside stock and what is on its way. */
  ghost predicate CanFit(def: Transform, caps: Caps, quota: map<Bucket, nat>, p: Plant) {
    && (forall name :: AmountOf(def.cost, name) > 0 ==>
          var b := (def.runsOn, name); SatAdd(Get(p.used, b), AmountOf(def.cost, name)) <= EffectiveCapacity(quota, b, Get(caps.base, b)))
    && (forall thing :: AmountOf(def.outputs, thing) > 0 ==>
          var s := (def.runsOn, thing); SatAdd(SatAdd(Get(p.inv, s), Get(p.pend, s)), AmountOf(def.outputs, thing)) <= Get(caps.storage, s))
  }

  lemma NamedAmounts(items: seq<Item>, name: Id)
    requires ItemsOk(items)
    ensures AmountOf(items, name) > 0 ==> exists i :: 0 <= i < |items| && items[i].name == name && items[i].amount == AmountOf(items, name)
  {
    AmountBounded(items, name);
    if AmountOf(items, name) > 0 {
      var i :| 0 <= i < |items| && items[i].name == name;
      AmountAt(items, i);
    }
  }

  lemma AllAmounts(items: seq<Item>)
    requires ItemsOk(items)
    ensures forall i :: 0 <= i < |items| ==> AmountOf(items, items[i].name) == items[i].amount > 0
  {
    forall i | 0 <= i < |items| ensures AmountOf(items, items[i].name) == items[i].amount { AmountAt(items, i); }
  }

  lemma FeedTold(def: Transform, p: Plant)
    requires TransformOk(def)
    ensures InputsAvailable(def, p) <==> CanFeed(def, p)
  {
    AllAmounts(def.inputs);
    if InputsAvailable(def, p) {
      forall thing ensures AmountOf(def.inputs, thing) <= Get(p.inv, (def.runsOn, thing)) { NamedAmounts(def.inputs, thing); }
    }
    hide AmountOf;
  }

  lemma FitTold(def: Transform, caps: Caps, quota: map<Bucket, nat>, p: Plant)
    requires TransformOk(def)
    ensures CapacityFits(def, caps, quota, p) && OutputsFit(def, caps, p) <==> CanFit(def, caps, quota, p)
  {
    AllAmounts(def.cost);
    AllAmounts(def.outputs);
    forall name { NamedAmounts(def.cost, name); }
    forall thing { NamedAmounts(def.outputs, thing); }
    hide AmountOf, EffectiveCapacity, ItemsOk;
  }

  /** An attempt is fed, fits, or is turned away for exactly these reasons, feeding first. */
  lemma TryTold(def: Transform, caps: Caps, quota: map<Bucket, nat>, p: Plant)
    requires TransformOk(def)
    ensures TryResult(def, caps, quota, p)
      == if !CanFeed(def, p) then CannotFeed else if !CanFit(def, caps, quota, p) then CannotFit else Started
  {
    FeedTold(def, p);
    FitTold(def, caps, quota, p);
    hide InputsAvailable, CapacityFits, OutputsFit, CanFeed, CanFit;
  }

  /** What an attempt makes of an instance, by what the plant lacks. */
  ghost function Verdict(def: Transform, caps: Caps, quota: map<Bucket, nat>, p: Plant, running: TState, starved: TState, blocked: TState): TState {
    if !CanFeed(def, p) then starved else if !CanFit(def, caps, quota, p) then blocked else running
  }

  /** From state st before tick n to state st' after it, when the transform finds plant p, and plant q after its first move. */
  ghost predicate TurnedBy(
    def: Transform, caps: Caps, quota: map<Bucket, nat>, st: TState, mid: TState, st': TState, p: Plant, q: Plant, n: u64)
    requires def.cadence > 0
  {
    && (Waiting(st) && n <= st.scheduledAt + def.deadline ==>
          mid == Verdict(def, caps, quota, p, Running(st.scheduledAt, n, 1), Starved(st.scheduledAt, st.scheduledAt, 1), Blocked(st.scheduledAt, st.scheduledAt, 1)))
    && (st.Late? ==> (mid == Running(n, n, st.attempt) <==> CanFeed(def, p) && CanFit(def, caps, quota, p)))
    && (mid.Idle? && n % def.cadence == 0 ==> st' == Verdict(def, caps, quota, q, Running(n, n, 1), Starved(n, n, 1), Blocked(n, n, 1)))
    && (!mid.Idle? || n % def.cadence != 0 ==> st' == mid)
  }

  lemma TurnedTold(def: Transform, caps: Caps, quota: map<Bucket, nat>, st: TState, p: Plant, q: Plant, n: u64)
    requires TransformOk(def) && 0 < n < U64_MAX && PhaseOk(def, st, n - 1)
    ensures var mid := Advance(def, st, TryResult(def, caps, quota, p), n).next;
      TurnedBy(def, caps, quota, st, mid, Trigger(def, mid, TryResult(def, caps, quota, q), n).next, p, q, n)
  {
    TryTold(def, caps, quota, p);
    TryTold(def, caps, quota, q);
    hide TryResult, CanFeed, CanFit;
  }

  /**
   * On tick n of any run: an instance that waits within its deadline starts if it can be fed and fits, and else is
   * starved or blocked by what it lacks; a late one starts exactly then; and a cadence slot that finds the transform
   * idle opens an instance that runs, starves or is blocked in the same way.
   */
  lemma TurnTold(lay: Layout, ws: seq<Weather>, n: nat, i: nat)
    requires TransformsOk(lay.ts) && 0 < n <= |ws| < U64_MAX && i < |lay.ts|
    ensures lay.ts[i].cadence > 0
    ensures var def := lay.ts[i];
      TurnedBy(def, lay.caps, ws[n - 1].quota, StateOf(PlantAt(lay, ws, n - 1), def.id), FirstMove(lay, ws, n, i).next,
               StateOf(PlantAt(lay, ws, n), def.id), Turn(lay, ws, n, i), MidTurn(lay, ws, n, i), n)
  {
    hide *;
    TransformAt(lay.ts, i);
    TurnTaken(lay, ws, n, i);
    PhaseOnRun(lay, ws, n - 1, i);
    TurnedTold(lay.ts[i], lay.caps, ws[n - 1].quota, StateOf(PlantAt(lay, ws, n - 1), lay.ts[i].id), Turn(lay, ws, n, i), MidTurn(lay, ws, n, i), n);
  }

  // ---- How long an instance stays open, and when it fails ----

  ghost predicate OpenSince(def: Transform, st: TState, s: nat) {
    !st.Idle? && OpenedAt(def, st) == s
  }

  /** An instance of `def` that was open after tick s delivered or failed later, by tick n. */
  ghost predicate EndedWithin(h: seq<Logged>, def: Transform, s: nat, n: nat) {
    exists j :: 0 <= j < |h| && h[j].def == def && s < h[j].tick <= n && Ends(h[j].move)
  }

  /** How many attempts an instance is given. */
  function Patience(def: Transform): u32 { if def.policy.Drop? then 1 else def.maxAttempts }

  predicate Names(m: Move, kind: WarningKind, attempt: u32) { Warning(kind, Some(attempt)) in m.warnings }

  lemma FailsWhen(def: Transform, st: TState, r: StartResult, now: u64)
    requires TransformOk(def) && 0 < now < U64_MAX && PhaseOk(def, st, now - 1)
    ensures var m := Advance(def, st, r, now);
      Warns(m, FailedWarning) ==> !st.Idle? && now == OpenedAt(def, st) + def.deadline + Patience(def) && Names(m, FailedWarning, Patience(def))
  {
  }

  function If<T>(b: bool, x: T): seq<T> { if b then [x] else [] }

  /**
   * What a transform reports on tick n. First: its instance is late on the tick after its deadline, and has failed on
   * the last tick of its patience unless it runs after a late start or, being late, starts now.
   */
  ghost function FirstSaid(def: Transform, caps: Caps, quota: map<Bucket, nat>, st: TState, p: Plant, n: u64): seq<Warning> {
    if st.Idle? then []
    else
      var due := OpenedAt(def, st) + def.deadline;
      If(n == due + 1, Warning(LateWarning, Some(1)))
      + If(n == due + Patience(def) && !RetryRun(def, st) && (st.Late? ==> !(CanFeed(def, p) && CanFit(def, caps, quota, p))),
           Warning(FailedWarning, Some(Patience(def))))
  }

  /** Then: a cadence slot is missed if an instance is open, and else opens one that may be starved or blocked. */
  ghost function SecondSaid(def: Transform, caps: Caps, quota: map<Bucket, nat>, mid: TState, q: Plant, n: u64): seq<Warning>
    requires def.cadence > 0
  {
    if n % def.cadence != 0 then []
    else if !mid.Idle? then [Warning(SlotMissed, None)]
    else if !CanFeed(def, q) then [Warning(StarvedWarning, None)]
    else If(!CanFit(def, caps, quota, q), Warning(BlockedWarning, None))
  }

  lemma SaidTold(def: Transform, caps: Caps, quota: map<Bucket, nat>, st: TState, mid: TState, p: Plant, q: Plant, n: u64)
    requires TransformOk(def) && 0 < n < U64_MAX && PhaseOk(def, st, n - 1)
    ensures Advance(def, st, TryResult(def, caps, quota, p), n).warnings == FirstSaid(def, caps, quota, st, p, n)
    ensures Trigger(def, mid, TryResult(def, caps, quota, q), n).warnings == SecondSaid(def, caps, quota, mid, q, n)
  {
    TryTold(def, caps, quota, p);
    TryTold(def, caps, quota, q);
    hide TryResult, CanFeed, CanFit;
  }

  /** On tick n of any run a transform reports exactly that. */
  lemma WarningsTold(lay: Layout, ws: seq<Weather>, n: nat, i: nat)
    requires TransformsOk(lay.ts) && 0 < n <= |ws| < U64_MAX && i < |lay.ts|
    ensures lay.ts[i].cadence > 0
    ensures var def := lay.ts[i];
      && FirstMove(lay, ws, n, i).warnings
           == FirstSaid(def, lay.caps, ws[n - 1].quota, StateOf(PlantAt(lay, ws, n - 1), def.id), Turn(lay, ws, n, i), n)
      && SecondMove(lay, ws, n, i).warnings == SecondSaid(def, lay.caps, ws[n - 1].quota, FirstMove(lay, ws, n, i).next, MidTurn(lay, ws, n, i), n)
  {
    hide *;
    TransformAt(lay.ts, i);
    TurnTaken(lay, ws, n, i);
    PhaseOnRun(lay, ws, n - 1, i);
    SaidTold(lay.ts[i], lay.caps, ws[n - 1].quota, StateOf(PlantAt(lay, ws, n - 1), lay.ts[i].id), FirstMove(lay, ws, n, i).next,
             Turn(lay, ws, n, i), MidTurn(lay, ws, n, i), n);
  }

  /** The two moves of a tick, on the state alone: an instance goes on, ends, or is opened on that very tick. */
  lemma StateTurn(def: Transform, st: TState, r1: StartResult, r2: StartResult, now: u64)
    requires TransformOk(def) && 0 < now < U64_MAX && PhaseOk(def, st, now - 1)
    ensures var m := Advance(def, st, r1, now); var st' := Trigger(def, m.next, r2, now).next;
      && (forall s :: OpenSince(def, st', s) ==> s == now || (!m.next.Idle? && OpenSince(def, st, s)))
      && (forall s :: OpenSince(def, st, s) && !Ends(m) ==> OpenSince(def, st', s))
      && (Warns(m, FailedWarning) ==> !st.Idle? && now == OpenedAt(def, st) + def.deadline + Patience(def))
  {
    AdvanceOnce(def, st, r1, now);
    TriggerOnce(def, Advance(def, st, r1, now).next, r2, now);
    FailsWhen(def, st, r1, now);
    hide Advance, Trigger, PhaseOk, OpenedAt, Patience;
  }

  lemma RunTurn(lay: Layout, ws: seq<Weather>, i: nat, t: nat)
    requires TransformsOk(lay.ts) && i < |lay.ts| && 0 < t <= |ws| < U64_MAX
    ensures var def := lay.ts[i]; var st, st' := StateOf(PlantAt(lay, ws, t - 1), def.id), StateOf(PlantAt(lay, ws, t), def.id);
      var m := FirstMove(lay, ws, t, i);
      && (forall s :: OpenSince(def, st', s) ==> s == t || (!m.next.Idle? && OpenSince(def, st, s)))
      && (forall s :: OpenSince(def, st, s) && !Ends(m) ==> OpenSince(def, st', s))
      && (Warns(m, FailedWarning) ==> !st.Idle? && t == OpenedAt(def, st) + def.deadline + Patience(def))
      && Logged(def, t, m) in PlantAt(lay, ws, t).history
  {
    hide *;
    var def := lay.ts[i];
    TurnTaken(lay, ws, t, i);
    PhaseOnRun(lay, ws, t - 1, i);
    StateTurn(def, StateOf(PlantAt(lay, ws, t - 1), def.id), TryResult(def, lay.caps, ws[t - 1].quota, Turn(lay, ws, t, i)),
              TryResult(def, lay.caps, ws[t - 1].quota, MidTurn(lay, ws, t, i)), t);
    LogWithin(PlantAt(lay, ws, t).history, def.id, Logged(def, t, FirstMove(lay, ws, t, i)));
  }

  /** The instance open after tick t was opened on tick s, and open since. */
  lemma {:induction false} OpenAllAlong(lay: Layout, ws: seq<Weather>, i: nat, s: nat, t: nat)
    requires TransformsOk(lay.ts) && i < |lay.ts| && s <= t <= |ws| < U64_MAX
    requires OpenSince(lay.ts[i], StateOf(PlantAt(lay, ws, t), lay.ts[i].id), s)
    ensures OpenSince(lay.ts[i], StateOf(PlantAt(lay, ws, s), lay.ts[i].id), s)
    decreases t
  {
    hide *;
    if s < t {
      RunTurn(lay, ws, i, t);
      OpenAllAlong(lay, ws, i, s, t - 1);
    }
  }

  lemma EndedStill(h: seq<Logged>, h': seq<Logged>, def: Transform, s: nat, n: nat)
    requires h <= h' && EndedWithin(h, def, s, n)
    ensures EndedWithin(h', def, s, n + 1)
  {
    var j :| 0 <= j < |h| && h[j].def == def && s < h[j].tick <= n && Ends(h[j].move);
    assert h'[j] == h[j];
  }

  lemma EndedNow(h: seq<Logged>, def: Transform, s: nat, n: u64, m: Move)
    requires Logged(def, n, m) in h && Ends(m) && s < n
    ensures EndedWithin(h, def, s, n)
  {
    hide Ends;
    var j :| 0 <= j < |h| && h[j] == Logged(def, n, m);
  }

  lemma {:induction false} InstanceFollowed(lay: Layout, ws: seq<Weather>, i: nat, s: nat, n: nat)
    requires TransformsOk(lay.ts) && s <= n <= |ws| < U64_MAX && i < |lay.ts|
    requires OpenSince(lay.ts[i], StateOf(PlantAt(lay, ws, s), lay.ts[i].id), s)
    ensures EndedWithin(PlantAt(lay, ws, n).history, lay.ts[i], s, n) || OpenSince(lay.ts[i], StateOf(PlantAt(lay, ws, n), lay.ts[i].id), s)
    decreases n
  {
    hide *;
    if n > s {
      InstanceFollowed(lay, ws, i, s, n - 1);
      RunTurn(lay, ws, i, n);
      HistoryGrows(lay, ws, n);
      if EndedWithin(PlantAt(lay, ws, n - 1).history, lay.ts[i], s, n - 1) {
        EndedStill(PlantAt(lay, ws, n - 1).history, PlantAt(lay, ws, n).history, lay.ts[i], s, n - 1);
      } else if Ends(FirstMove(lay, ws, n, i)) {
        EndedNow(PlantAt(lay, ws, n).history, lay.ts[i], s, n, FirstMove(lay, ws, n, i));
      }
    }
  }

  /**
   * Whatever quotas, injections and rival transforms do, an instance opened at tick s has delivered or failed
   * by tick s + deadline + max_attempts + duration.
   */
  lemma InstanceResolves(lay: Layout, ws: seq<Weather>, i: nat, s: nat)
    requires TransformsOk(lay.ts) && i < |lay.ts|
    requires s <= Horizon(lay.ts[i], s) <= |ws| < U64_MAX
    requires OpenSince(lay.ts[i], StateOf(PlantAt(lay, ws, s), lay.ts[i].id), s)
    ensures var n := Horizon(lay.ts[i], s); EndedWithin(PlantAt(lay, ws, n).history, lay.ts[i], s, n)
  {
    var n := Horizon(lay.ts[i], s);
    InstanceFollowed(lay, ws, i, s, n);
    PhaseOnRun(lay, ws, n, i);
    hide PlantAt, PhaseOk, TransformOk, TransformsOk;
    var st := StateOf(PlantAt(lay, ws, n), lay.ts[i].id);
    if !st.Idle? { PhaseWithinHorizon(lay.ts[i], st, n); }
  }

  /** An instance that fails was opened exactly its deadline and its attempts before, and the warning names the last attempt. */
  ghost predicate FailsInTurn(lay: Layout, ws: seq<Weather>, i: nat, e: Logged)
    requires |ws| <= U64_MAX && i < |lay.ts| && e.tick <= |ws|
  {
    var def := lay.ts[i];
    var s := e.tick - def.deadline - Patience(def);
    1 <= s <= e.tick && OpenSince(def, StateOf(PlantAt(lay, ws, s), def.id), s) && Names(e.move, FailedWarning, Patience(def))
  }

  /**
   * On every run, a transform that retries fails an instance opened on tick s exactly on tick s + deadline +
   * max_attempts, naming its last attempt, and never before; one that drops fails it on s + deadline + 1.
   */
  lemma FailuresExact(lay: Layout, ws: seq<Weather>, n: nat, i: nat, e: Logged)
    requires TransformsOk(lay.ts) && n <= |ws| < U64_MAX && i < |lay.ts|
    requires e in PlantAt(lay, ws, n).history && e.def.id == lay.ts[i].id && Warns(e.move, FailedWarning)
    ensures e.tick <= n && FailsInTurn(lay, ws, i, e)
  {
    hide *;
    var def := lay.ts[i];
    Recorded(lay, ws, n, i, e);
    FailingMove(lay, ws, e.tick, i, e.move);
    var st := StateOf(PlantAt(lay, ws, e.tick - 1), def.id);
    PhaseWithinHorizon(def, st, e.tick - 1);
    OpenNow(def, st);
    OpenAllAlong(lay, ws, i, OpenedAt(def, st), e.tick - 1);
    FailsThen(lay, ws, i, e);
  }

  lemma OpenNow(def: Transform, st: TState)
    requires !st.Idle? && OpenedAt(def, st) >= 0
    ensures OpenSince(def, st, OpenedAt(def, st))
  {
  }

  lemma FailsThen(lay: Layout, ws: seq<Weather>, i: nat, e: Logged)
    requires |ws| <= U64_MAX && i < |lay.ts| && 0 < e.tick <= |ws|
    requires var def := lay.ts[i]; var st := StateOf(PlantAt(lay, ws, e.tick - 1), def.id);
      && !st.Idle? && e.tick == OpenedAt(def, st) + def.deadline + Patience(def) && Names(e.move, FailedWarning, Patience(def))
      && 1 <= OpenedAt(def, st) < e.tick && OpenSince(def, StateOf(PlantAt(lay, ws, OpenedAt(def, st)), def.id), OpenedAt(def, st))
    ensures FailsInTurn(lay, ws, i, e)
  {
    hide PlantAt, StateOf, OpenedAt, OpenSince, Names, Patience;
  }

  /** Of the two moves of a tick only the first can fail, and it fails as FailsWhen says. */
  lemma FailingTurn(def: Transform, st: TState, r1: StartResult, r2: StartResult, now: u64, m: Move)
    requires TransformOk(def) && 0 < now < U64_MAX && PhaseOk(def, st, now - 1) && Warns(m, FailedWarning)
    requires m == Advance(def, st, r1, now) || m == Trigger(def, Advance(def, st, r1, now).next, r2, now)
    ensures !st.Idle? && now == OpenedAt(def, st) + def.deadline + Patience(def) && Names(m, FailedWarning, Patience(def))
  {
    FailsWhen(def, st, r1, now);
    hide Advance, PhaseOk, OpenedAt, TransformOk, Patience;
  }

  lemma FailingMove(lay: Layout, ws: seq<Weather>, t: nat, i: nat, m: Move)
    requires TransformsOk(lay.ts) && 0 < t <= |ws| < U64_MAX && i < |lay.ts| && Warns(m, FailedWarning)
    requires m == FirstMove(lay, ws, t, i) || m == SecondMove(lay, ws, t, i)
    ensures var def := lay.ts[i]; var st := StateOf(PlantAt(lay, ws, t - 1), def.id);
      && TransformOk(def) && PhaseOk(def, st, t - 1)
      && !st.Idle? && t == OpenedAt(def, st) + def.deadline + Patience(def) && Names(m, FailedWarning, Patience(def))
  {
    hide *;
    var def := lay.ts[i];
    TurnTaken(lay, ws, t, i);
    PhaseOnRun(lay, ws, t - 1, i);
    FailingTurn(def, StateOf(PlantAt(lay, ws, t - 1), def.id), TryResult(def, lay.caps, ws[t - 1].quota, Turn(lay, ws, t, i)),
                TryResult(def, lay.caps, ws[t - 1].quota, MidTurn(lay, ws, t, i)), t, m);
  }

  /** An instance of `def` opened on tick s was delivered later, by tick n. */
  ghost predicate DeliveredWithin(h: seq<Logged>, def: Transform, s: nat, n: nat) {
    exists j :: 0 <= j < |h| && h[j].def == def && s < h[j].tick <= n && h[j].move.effect.Deliver?
  }

  lemma StaysOpen(lay: Layout, ws: seq<Weather>, i: nat, s: nat, t: nat)
    requires TransformsOk(lay.ts) && i < |lay.ts| && s < t <= |ws| < U64_MAX && t < s + lay.ts[i].deadline + Patience(lay.ts[i])
    requires OpenSince(lay.ts[i], StateOf(PlantAt(lay, ws, t - 1), lay.ts[i].id), s)
    ensures OpenSince(lay.ts[i], StateOf(PlantAt(lay, ws, t), lay.ts[i].id), s) || DeliveredWithin(PlantAt(lay, ws, t).history, lay.ts[i], s, t)
  {
    hide PlantAt, FirstMove, TransformsOk, StateOf, TransformOk, OpenedAt;
    RunTurn(lay, ws, i, t);
    var h, e := PlantAt(lay, ws, t).history, Logged(lay.ts[i], t, FirstMove(lay, ws, t, i));
    var j :| 0 <= j < |h| && h[j] == e;
  }

  lemma {:induction false} LogWithin(h: seq<Logged>, id: Id, e: Logged)
    requires e in LogOf(h, id)
    ensures e in h
  {
    if h != [] && e in LogOf(h[..|h| - 1], id) { LogWithin(h[..|h| - 1], id, e); }
  }

  /**
   * Until its attempts are used up no instance is lost: opened on tick s and not delivered, it is still open after
   * every tick t before s + deadline + attempts; past its deadline it is then late at attempt t - s - deadline + 1,
   * or running after a late start.
   */
  lemma {:induction false} NeverLostEarly(lay: Layout, ws: seq<Weather>, i: nat, s: nat, t: nat)
    requires TransformsOk(lay.ts) && i < |lay.ts| && s <= t <= |ws| < U64_MAX && t < s + lay.ts[i].deadline + Patience(lay.ts[i])
    requires OpenSince(lay.ts[i], StateOf(PlantAt(lay, ws, s), lay.ts[i].id), s)
    ensures var def := lay.ts[i]; var st := StateOf(PlantAt(lay, ws, t), def.id);
      || DeliveredWithin(PlantAt(lay, ws, t).history, def, s, t)
      || (OpenSince(def, st, s) && (t > s + def.deadline ==> RetryRun(def, st) || st == Late(s, t - s - def.deadline + 1, s + def.deadline + 1)))
    decreases t
  {
    hide PlantAt, StateOf, TransformsOk, OpenedAt, TransformOk;
    var def := lay.ts[i];
    PhaseOnRun(lay, ws, t, i);
    if s < t {
      NeverLostEarly(lay, ws, i, s, t - 1);
      if DeliveredWithin(PlantAt(lay, ws, t - 1).history, def, s, t - 1) {
        HistoryGrows(lay, ws, t);
        DeliveredStill(PlantAt(lay, ws, t - 1).history, PlantAt(lay, ws, t).history, def, s, t - 1, t);
      } else {
        StaysOpen(lay, ws, i, s, t);
        LatePhase(def, StateOf(PlantAt(lay, ws, t), def.id), s, t);
      }
    } else {
      LatePhase(def, StateOf(PlantAt(lay, ws, t), def.id), s, t);
    }
  }

  lemma DeliveredStill(h: seq<Logged>, h': seq<Logged>, def: Transform, s: nat, t: nat, t': nat)
    requires h <= h' && t <= t' && DeliveredWithin(h, def, s, t)
    ensures DeliveredWithin(h', def, s, t')
  {
    var j :| 0 <= j < |h| && h[j].def == def && s < h[j].tick <= t && h[j].move.effect.Deliver?;
    assert h'[j] == h[j];
  }

  lemma LatePhase(def: Transform, st: TState, s: nat, t: nat)
    requires TransformOk(def) && PhaseOk(def, st, t)
    ensures OpenSince(def, st, s) && t > s + def.deadline ==> RetryRun(def, st) || st == Late(s, t - s - def.deadline + 1, s + def.deadline + 1)
  {
  }
}
