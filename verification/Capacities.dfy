/** Exactly which storage capacities the engine keeps exact, and exactly which slots it never overfills. */
module Capacities {
  import opened Base
  import opened Order
  import opened Sl1Scene
  import opened Pressures
  import opened Plants
  import opened Reservations
  import opened PlantRuns

  // ---- What is claimed of all scenes with given capacities ----

  /** At most how many units can be on their way into a slot. */
  function Most(most: map<Slot, nat>, s: Slot): nat { if s in most then most[s] else 0 }

  ghost predicate Candidate(lay: Layout, caps: Caps, sources: set<Slot>, most: map<Slot, nat>) {
    lay.caps == caps && Laid(lay, sources) && forall s :: TotalSum(lay.ts, OutputTo(s)) <= Most(most, s)
  }

  /** On every run of every layout with these capacities, stock is what the counts of moves say. */
  ghost predicate KeepsUnits(caps: Caps, sources: set<Slot>, most: map<Slot, nat>) {
    forall lay: Layout, ws: seq<Weather>, n: nat :: Candidate(lay, caps, sources, most) && WeathersOk(ws, sources) && n <= |ws|
      ==> StockExact(lay, ArrivedBy(lay, ws, n), PlantAt(lay, ws, n))
  }

  /** On every such run, stock and what is on its way fit the slot together. */
  ghost predicate NeverOverfull(caps: Caps, sources: set<Slot>, most: map<Slot, nat>, s: Slot) {
    forall lay: Layout, ws: seq<Weather>, n: nat :: Candidate(lay, caps, sources, most) && WeathersOk(ws, sources) && n <= |ws|
      ==> InRoom(caps, PlantAt(lay, ws, n), s)
  }

  predicate InRoom(caps: Caps, p: Plant, s: Slot) { Get(p.inv, s) + Get(p.pend, s) <= Get(caps.storage, s) }

  ghost predicate Fits(caps: Caps, sources: set<Slot>, most: map<Slot, nat>) {
    forall s :: s in caps.storage ==> RoomFits(caps.storage[s], s in sources, Most(most, s))
  }

  /** The room check of the engine, with its saturating sums. */
  predicate RoomLeft(inv: u64, pending: u64, out: u64, cap: u64) { SatAdd(SatAdd(inv, pending), out) <= cap }

  /** The check decides the true sum, whatever is in stock, on its way and to come, exactly below the top of the range. */
  lemma RoomCheckExactly(cap: u64)
    ensures (forall inv: u64, pending: u64, out: u64 :: RoomLeft(inv, pending, out, cap) <==> inv + pending + out <= cap) <==> cap < U64_MAX
  {
    if cap == U64_MAX { assert RoomLeft(U64_MAX, 0, 1, cap); }
  }

  // ---- Enough room is enough ----

  lemma CandidateOk(lay: Layout, caps: Caps, sources: set<Slot>, most: map<Slot, nat>)
    requires Fits(caps, sources, most) && Candidate(lay, caps, sources, most)
    ensures LayoutOk(lay, sources)
  {
    hide Laid, TotalSum;
  }

  lemma RoomKeepsUnits(caps: Caps, sources: set<Slot>, most: map<Slot, nat>)
    requires Fits(caps, sources, most)
    ensures KeepsUnits(caps, sources, most)
  {
    hide LayoutOk, Fits, Candidate, WeathersOk, PlantAt, StockExact, ReservedExactly, WithinLimits, TagsExact, KeysExact;
    forall lay: Layout, ws: seq<Weather>, n: nat | Candidate(lay, caps, sources, most) && WeathersOk(ws, sources) && n <= |ws|
      ensures |ws| <= U64_MAX && StockExact(lay, ArrivedBy(lay, ws, n), PlantAt(lay, ws, n))
    {
      CandidateOk(lay, caps, sources, most);
      RunUnfold(lay, ws, n, sources);
      PlantInvariant(lay, sources, ws, n);
    }
  }

  // ---- Transforms that pour given amounts into one slot ----

  function Name(k: nat): Id { seq(k + 1, _ => 'a') }

  lemma {:induction false} NamesAscend(i: nat, j: nat)
    requires i < j
    ensures Less(Name(i), Name(j))
  {
    assert Name(j)[1..] == Name(j - 1);
    if i > 0 {
      assert Name(i)[1..] == Name(i - 1);
      NamesAscend(i - 1, j - 1);
    } else {
      assert Name(i)[1..] == "";
    }
  }

  ghost predicate Amounts(amounts: seq<u64>) {
    |amounts| <= MAX_ITEMS && forall i :: 0 <= i < |amounts| ==> 1 <= amounts[i] <= MAX_AMOUNT
  }

  function SumOf(amounts: seq<u64>): nat {
    if amounts == [] then 0 else SumOf(amounts[..|amounts| - 1]) + amounts[|amounts| - 1]
  }

  function Split(total: nat): (amounts: seq<u64>)
    ensures SumOf(amounts) == total
    ensures forall i :: 0 <= i < |amounts| ==> 1 <= amounts[i] <= MAX_AMOUNT
    ensures |amounts| * MAX_AMOUNT < total + MAX_AMOUNT
  {
    if total == 0 then []
    else
      var last := Min(MAX_AMOUNT, total);
      var front := Split(total - last);
      assert (front + [last])[..|front|] == front;
      front + [last]
  }

  /** No inputs, no capacity cost, a start on every tick. */
  function Pourer(s: Slot, k: nat, amount: u64, duration: u64): Transform {
    Transform(Name(k), s.0, [], [Item(s.1, amount)], 1, duration, duration, [], Drop, 1)
  }

  function Pourers(s: Slot, amounts: seq<u64>, duration: u64): seq<Transform> {
    seq(|amounts|, k requires 0 <= k < |amounts| => Pourer(s, k, amounts[k], duration))
  }

  lemma PourersOk(s: Slot, amounts: seq<u64>, duration: u64)
    requires Amounts(amounts) && 1 <= duration <= MAX_TICKS
    ensures TransformsOk(Pourers(s, amounts, duration))
  {
    var ts := Pourers(s, amounts, duration);
    forall i, j | 0 <= i < j < |ts| ensures Less(TransformKey(ts[i]), TransformKey(ts[j])) {
      NamesAscend(i, j);
    }
  }

  lemma {:induction false} PourersTotal(s: Slot, amounts: seq<u64>, duration: u64, r: Slot)
    ensures TotalSum(Pourers(s, amounts, duration), OutputTo(r)) == if r == s then SumOf(amounts) else 0
  {
    if amounts != [] {
      var front := amounts[..|amounts| - 1];
      PourersTotal(s, front, duration, r);
      var last := Pourer(s, |front|, amounts[|front|], duration);
      assert Pourers(s, amounts, duration) == Pourers(s, front, duration) + [last];
      assert Pourers(s, amounts, duration)[..|front|] == Pourers(s, front, duration);
      assert last.outputs[..0] == [] && AmountOf([], r.1) == 0;
      assert Weigh(OutputTo(r), last) == if r == s then amounts[|front|] else 0;
    }
  }

  // ---- The first tick starts them all ----

  /** The first k pourers run since tick 1; nothing has been consumed or produced. */
  ghost predicate Pouring(s: Slot, amounts: seq<u64>, k: nat, inv: map<Slot, u64>, p: Plant)
    requires k <= |amounts|
  {
    && p.inv == inv && Get(p.pend, s) == SumOf(amounts[..k])
    && (forall j :: 0 <= j < |amounts| ==> StateOf(p, Name(j)) == if j < k then Running(1, 1, 1) else Idle)
    && Consumed(p.history, s) == 0 && Produced(p.history, s) == 0
  }

  lemma NamesDiffer(i: nat, j: nat)
    ensures Name(i) == Name(j) <==> i == j
  {
    assert |Name(i)| == i + 1 && |Name(j)| == j + 1;
  }

  lemma SoleItem(m: map<Slot, u64>, s: Slot, amount: u64)
    ensures AdjustAll(m, s.0, [Item(s.1, amount)], Plus) == m[s := SatAdd(Get(m, s), amount)]
  {
    assert [Item(s.1, amount)][..0] == [] && s == (s.0, s.1);
  }

  lemma NextSum(amounts: seq<u64>, k: nat)
    requires k < |amounts|
    ensures SumOf(amounts[..k + 1]) == SumOf(amounts[..k]) + amounts[k]
  {
    assert amounts[..k + 1][..k] == amounts[..k];
  }

  /** What a start of a pourer does to the plant, on tick 1. */
  function AfterStart(def: Transform, s: Slot, amount: u64, p: Plant): Plant {
    p.(pend := p.pend[s := SatAdd(Get(p.pend, s), amount)], states := p.states[def.id := Running(1, 1, 1)],
       history := p.history + [Logged(def, 1, Move(Idle, Nothing, []))] + [Logged(def, 1, Move(Running(1, 1, 1), Take, []))])
  }

  lemma StartIs(s: Slot, k: nat, amount: u64, duration: u64, caps: Caps, p: Plant)
    requires StateOf(p, Name(k)) == Idle
    requires SatAdd(SatAdd(Get(p.inv, s), Get(p.pend, s)), amount) <= Get(caps.storage, s)
    ensures var def := Pourer(s, k, amount, duration); ProcessOne(def, caps, map[], p, 1) == AfterStart(def, s, amount, p)
  {
    hide Name;
    var def := Pourer(s, k, amount, duration);
    SoleItem(p.pend, s, amount);
    var m1 := AdvanceMove(def, caps, map[], p, 1);
    assert m1 == Move(Idle, Nothing, []);
    var p1 := Step(def, p, m1, 1);
    assert (s.0, s.1) == s;
    assert TryResult(def, caps, map[], p1) == Started;
    assert TriggerMove(def, caps, map[], p1, 1) == Move(Running(1, 1, 1), Take, []);
    assert p1.states[def.id := Running(1, 1, 1)] == p.states[def.id := Running(1, 1, 1)];
  }

  /** Moves of a pourer consume nothing; a delivery produces its amount. */
  lemma PourerMoves(h: seq<Logged>, s: Slot, k: nat, amount: u64, duration: u64, now: u64, m1: Move, m2: Move)
    requires !m2.effect.Deliver?
    ensures var def := Pourer(s, k, amount, duration); var h' := h + [Logged(def, now, m1)] + [Logged(def, now, m2)];
      Consumed(h', s) == Consumed(h, s) && Produced(h', s) == Produced(h, s) + if m1.effect.Deliver? then amount else 0
  {
    var def := Pourer(s, k, amount, duration);
    hide Name;
    Append(h, Logged(def, now, m1));
    Append(h + [Logged(def, now, m1)], Logged(def, now, m2));
    assert AmountOf(def.outputs, s.1) == amount;
  }

  lemma OtherNames(n: nat, k: nat)
    ensures forall j | 0 <= j < n :: Name(j) == Name(k) <==> j == k
  {
    forall j | 0 <= j < n ensures Name(j) == Name(k) <==> j == k { NamesDiffer(j, k); }
  }

  lemma StartOne(s: Slot, amounts: seq<u64>, duration: u64, k: nat, caps: Caps, inv: map<Slot, u64>, p: Plant)
    requires Amounts(amounts) && k < |amounts| && Pouring(s, amounts, k, inv, p)
    requires SatAdd(SatAdd(Get(inv, s), SumOf(amounts[..k])), amounts[k]) <= Get(caps.storage, s)
    requires SumOf(amounts[..k]) + amounts[k] <= U64_MAX
    ensures Pouring(s, amounts, k + 1, inv, ProcessOne(Pourer(s, k, amounts[k], duration), caps, map[], p, 1))
  {
    NextSum(amounts, k);
    OtherNames(|amounts|, k);
    hide ProcessOne, Consumed, Produced, SumOf, Name, TryResult;
    StartIs(s, k, amounts[k], duration, caps, p);
    PourerMoves(p.history, s, k, amounts[k], duration, 1, Move(Idle, Nothing, []), Move(Running(1, 1, 1), Take, []));
  }

  lemma {:induction false} PrefixSum(amounts: seq<u64>, k: nat)
    requires k <= |amounts|
    ensures SumOf(amounts[..k]) <= SumOf(amounts)
    decreases |amounts|
  {
    if k == |amounts| {
      assert amounts[..k] == amounts;
    } else {
      var front := amounts[..|amounts| - 1];
      assert front[..k] == amounts[..k];
      PrefixSum(front, k);
    }
  }

  lemma {:induction false} StartAll(lay: Layout, s: Slot, amounts: seq<u64>, duration: u64, p: Plant, k: nat)
    requires Amounts(amounts) && k <= |amounts| && lay.ts == Pourers(s, amounts, duration)
    requires Pouring(s, amounts, 0, p.inv, p)
    requires SumOf(amounts) <= U64_MAX
    requires Get(lay.caps.storage, s) == U64_MAX || Get(p.inv, s) + SumOf(amounts) <= Get(lay.caps.storage, s)
    ensures Pouring(s, amounts, k, p.inv, ProcessFirst(lay.ts, k, lay.caps, map[], p, 1))
  {
    hide ProcessOne, Pouring;
    if k > 0 {
      StartAll(lay, s, amounts, duration, p, k - 1);
      ProcessUnfold(lay, k - 1, map[], p, 1);
      PrefixSum(amounts, k);
      NextSum(amounts, k - 1);
      StartOne(s, amounts, duration, k - 1, lay.caps, p.inv, ProcessFirst(lay.ts, k - 1, lay.caps, map[], p, 1));
    } else {
      ProcessNone(lay, map[], p, 1);
    }
  }

  // ---- The second tick delivers them all ----

  /** The first k pourers have delivered on tick 2; the others still run. */
  ghost predicate Poured(s: Slot, amounts: seq<u64>, k: nat, p: Plant)
    requires k <= |amounts|
  {
    && Consumed(p.history, s) == 0 && Produced(p.history, s) == SumOf(amounts[..k])
    && (forall j :: k <= j < |amounts| ==> StateOf(p, Name(j)) == Running(1, 1, 1))
  }

  lemma PourIs(s: Slot, k: nat, amount: u64, caps: Caps, p: Plant)
    requires StateOf(p, Name(k)) == Running(1, 1, 1)
    ensures var def := Pourer(s, k, amount, 1); var p' := ProcessOne(def, caps, map[], p, 2);
      && (exists m2: Move :: !m2.effect.Deliver?
            && p'.history == p.history + [Logged(def, 2, Move(Idle, Deliver, []))] + [Logged(def, 2, m2)])
      && forall id :: id != def.id ==> StateOf(p', id) == StateOf(p, id)
  {
    hide Name, AdjustAll, Stamp, TryResult;
    var def := Pourer(s, k, amount, 1);
    var m1 := AdvanceMove(def, caps, map[], p, 2);
    assert m1 == Move(Idle, Deliver, []);
    var p1 := Step(def, p, m1, 2);
    var m2 := TriggerMove(def, caps, map[], p1, 2);
    assert !m2.effect.Deliver?;
    assert ProcessOne(def, caps, map[], p, 2).history == p.history + [Logged(def, 2, m1)] + [Logged(def, 2, m2)];
  }

  lemma PourOne(s: Slot, amounts: seq<u64>, k: nat, caps: Caps, p: Plant)
    requires k < |amounts| && Poured(s, amounts, k, p)
    ensures Poured(s, amounts, k + 1, ProcessOne(Pourer(s, k, amounts[k], 1), caps, map[], p, 2))
  {
    var def := Pourer(s, k, amounts[k], 1);
    NextSum(amounts, k);
    OtherNames(|amounts|, k);
    hide ProcessOne, Consumed, Produced, SumOf, Name;
    PourIs(s, k, amounts[k], caps, p);
    var p' := ProcessOne(def, caps, map[], p, 2);
    var m2: Move :| !m2.effect.Deliver? && p'.history == p.history + [Logged(def, 2, Move(Idle, Deliver, []))] + [Logged(def, 2, m2)];
    PourerMoves(p.history, s, k, amounts[k], 1, 2, Move(Idle, Deliver, []), m2);
  }

  lemma {:induction false} PourAll(lay: Layout, s: Slot, amounts: seq<u64>, p: Plant, k: nat)
    requires k <= |amounts| && lay.ts == Pourers(s, amounts, 1) && Poured(s, amounts, 0, p)
    ensures Poured(s, amounts, k, ProcessFirst(lay.ts, k, lay.caps, map[], p, 2))
  {
    hide ProcessOne, Poured;
    if k > 0 {
      PourAll(lay, s, amounts, p, k - 1);
      ProcessUnfold(lay, k - 1, map[], p, 2);
      PourOne(s, amounts, k - 1, lay.caps, ProcessFirst(lay.ts, k - 1, lay.caps, map[], p, 2));
    } else {
      ProcessNone(lay, map[], p, 2);
    }
  }

  // ---- Runs of the first two ticks ----

  /** Nothing on tick 1; on tick 2, pressure asks for `rs`. */
  function TwoTicks(rs: seq<Request>): seq<Weather> { [Weather(map[], []), Weather(map[], rs)] }

  ghost predicate PoursInto(lay: Layout, s: Slot, amounts: seq<u64>, duration: u64) {
    && Amounts(amounts) && lay.ts == Pourers(s, amounts, duration)
    && SumOf(amounts) <= U64_MAX
    && (Get(lay.caps.storage, s) == U64_MAX || Get(lay.initial, s) + SumOf(amounts) <= Get(lay.caps.storage, s))
  }

  lemma FirstTick(lay: Layout, s: Slot, amounts: seq<u64>, duration: u64, rs: seq<Request>)
    requires PoursInto(lay, s, amounts, duration)
    ensures Pouring(s, amounts, |amounts|, lay.initial, PlantAt(lay, TwoTicks(rs), 1))
  {
    var p := Opening(lay);
    var aged := p.(stamps := Age(p.stamps, lay.budgets, 1));
    hide Pourers, Name;
    assert PlantAt(lay, TwoTicks(rs), 0) == p;
    TickUnfold(lay, p, TwoTicks(rs)[0], 1, p, aged);
    assert |lay.ts| == |amounts| by { TsLength(s, amounts, duration); }
    assert amounts[..0] == [];
    assert Pouring(s, amounts, 0, lay.initial, aged);
    StartAll(lay, s, amounts, duration, aged, |amounts|);
  }

  lemma TsLength(s: Slot, amounts: seq<u64>, duration: u64)
    ensures |Pourers(s, amounts, duration)| == |amounts|
  {
  }

  /** The plant as the transforms find it on tick 2. */
  ghost function Found(lay: Layout, rs: seq<Request>): Plant {
    var p := PlantAt(lay, TwoTicks(rs), 1);
    var injected := p.(inv := InjectAll(p.inv, lay.caps.storage, rs));
    injected.(stamps := Age(injected.stamps, lay.budgets, 2))
  }

  lemma SecondTickIs(lay: Layout, rs: seq<Request>)
    ensures PlantAt(lay, TwoTicks(rs), 2) == ProcessFirst(lay.ts, |lay.ts|, lay.caps, map[], Found(lay, rs), 2)
  {
    var p := PlantAt(lay, TwoTicks(rs), 1);
    var injected := p.(inv := InjectAll(p.inv, lay.caps.storage, rs));
    hide InjectAll, Age, ProcessFirst;
    TickUnfold(lay, p, TwoTicks(rs)[1], 2, injected, Found(lay, rs));
    assert PlantAt(lay, TwoTicks(rs), 2) == PlantTick(lay, p, TwoTicks(rs)[1], 2);
  }

  lemma SecondTick(lay: Layout, s: Slot, amounts: seq<u64>, rs: seq<Request>)
    requires PoursInto(lay, s, amounts, 1)
    ensures Poured(s, amounts, |amounts|, PlantAt(lay, TwoTicks(rs), 2))
  {
    FirstTick(lay, s, amounts, 1, rs);
    SecondTickIs(lay, rs);
    TsLength(s, amounts, 1);
    assert amounts[..0] == [];
    hide PlantAt, Age, InjectAll, ProcessFirst, Pourers, Name, Consumed, Produced;
    PourAll(lay, s, amounts, Found(lay, rs), |amounts|);
  }

  lemma ArrivedBy2(lay: Layout, s: Slot, amounts: seq<u64>, duration: u64, rs: seq<Request>)
    requires PoursInto(lay, s, amounts, duration)
    ensures Arrived(lay, TwoTicks(rs), 2, s) == InjectedTo(lay.initial, lay.caps.storage, rs, s)
  {
    FirstTick(lay, s, amounts, duration, rs);
    var ws := TwoTicks(rs);
    hide PlantAt, PoursInto;
    assert Arrived(lay, ws, 1, s) == Arrived(lay, ws, 0, s) + InjectedTo(PlantAt(lay, ws, 0).inv, lay.caps.storage, ws[0].requests, s);
    assert InjectedTo(PlantAt(lay, ws, 0).inv, lay.caps.storage, [], s) == 0;
    assert Arrived(lay, ws, 2, s) == Arrived(lay, ws, 1, s) + InjectedTo(PlantAt(lay, ws, 1).inv, lay.caps.storage, ws[1].requests, s);
  }

  /** What is delivered above the top of the 64-bit range is lost. */
  lemma LosesUnits(lay: Layout, s: Slot, amounts: seq<u64>, rs: seq<Request>)
    requires PoursInto(lay, s, amounts, 1)
    requires Get(lay.initial, s) + InjectedTo(lay.initial, lay.caps.storage, rs, s) + SumOf(amounts) > U64_MAX
    ensures !StockExact(lay, ArrivedBy(lay, TwoTicks(rs), 2), PlantAt(lay, TwoTicks(rs), 2))
  {
    SecondTick(lay, s, amounts, rs);
    ArrivedBy2(lay, s, amounts, 1, rs);
    assert amounts[..|amounts|] == amounts;
    hide PlantAt, Arrived, InjectedTo, SumOf, PoursInto;
  }

  // ---- Too little room loses units ----

  /** A layout of pourers over given capacities, with one slot stocked. */
  function Witness(caps: Caps, s: Slot, stock: u64, amounts: seq<u64>, duration: u64): Layout {
    Layout(Pourers(s, amounts, duration), caps, map[], map r | r in caps.storage :: if r == s then stock else 0)
  }

  lemma WitnessIs(caps: Caps, sources: set<Slot>, most: map<Slot, nat>, s: Slot, stock: u64, amounts: seq<u64>, duration: u64)
    requires Amounts(amounts) && 1 <= duration <= MAX_TICKS && SumOf(amounts) <= Most(most, s)
    requires sources <= caps.storage.Keys && s in caps.storage && stock <= caps.storage[s]
    ensures Candidate(Witness(caps, s, stock, amounts, duration), caps, sources, most)
  {
    PourersOk(s, amounts, duration);
    var ts := Pourers(s, amounts, duration);
    forall r ensures TotalSum(ts, OutputTo(r)) <= Most(most, r) {
      PourersTotal(s, amounts, duration, r);
    }
    hide TotalSum, TransformsOk, Name;
  }

  /** The injection that tops a slot up. */
  function TopUp(caps: Caps, sources: set<Slot>, s: Slot): seq<Request> {
    if s in sources then [Request(s, Get(caps.storage, s))] else []
  }

  lemma TopUpOk(caps: Caps, sources: set<Slot>, s: Slot, inv: map<Slot, u64>)
    ensures WeathersOk(TwoTicks(TopUp(caps, sources, s)), sources)
    ensures InjectedTo(inv, caps.storage, TopUp(caps, sources, s), s) == if s in sources then SatSub(Get(caps.storage, s), Get(inv, s)) else 0
  {
    var rs := TopUp(caps, sources, s);
    if s in sources {
      assert rs[..0] == [];
      assert InjectedTo(inv, caps.storage, rs, s) == InjectedTo(inv, caps.storage, [], s) + Injected(inv, caps.storage, rs[0]);
    }
  }

  lemma TooTightLoses(caps: Caps, sources: set<Slot>, most: map<Slot, nat>, s: Slot)
    requires sources <= caps.storage.Keys && Most(most, s) <= ROOM
    requires s in caps.storage && !RoomFits(caps.storage[s], s in sources, Most(most, s))
    ensures !KeepsUnits(caps, sources, most)
  {
    var cap := caps.storage[s];
    var total := if s in sources then U64_MAX - cap + 1 else 1;
    var stock: u64 := if s in sources then 0 else cap;
    var amounts := Split(total);
    assert Amounts(amounts) by { SplitShort(total); }
    var lay := Witness(caps, s, stock, amounts, 1);
    var rs := TopUp(caps, sources, s);
    WitnessIs(caps, sources, most, s, stock, amounts, 1);
    TopUpOk(caps, sources, s, lay.initial);
    LosesUnits(lay, s, amounts, rs);
    hide Candidate, WeathersOk, StockExact, PlantAt, TwoTicks;
    assert 2 <= |TwoTicks(rs)| <= U64_MAX by { TwoTicksLength(rs); }
  }

  lemma TwoTicksLength(rs: seq<Request>)
    ensures |TwoTicks(rs)| == 2
  {
  }

  lemma SplitShort(total: nat)
    requires total <= ROOM
    ensures |Split(total)| <= MAX_ITEMS
  {
  }

  /**
   * Over all scenes with given storage capacities: stock is exact on every run if and only if every capacity has
   * room for what can be on its way into its slot.
   */
  lemma UnitsKeptExactly(caps: Caps, sources: set<Slot>, most: map<Slot, nat>)
    requires sources <= caps.storage.Keys && forall s :: Most(most, s) <= ROOM
    ensures KeepsUnits(caps, sources, most) <==> Fits(caps, sources, most)
  {
    hide KeepsUnits, RoomFits;
    if Fits(caps, sources, most) {
      RoomKeepsUnits(caps, sources, most);
    } else {
      var s :| s in caps.storage && !RoomFits(caps.storage[s], s in sources, Most(most, s));
      TooTightLoses(caps, sources, most, s);
    }
  }

  // ---- Slots that injection can overfill ----

  /** Injection keeps a slot that has room within it exactly when it leaves what was on its way its room. */
  lemma InjectionFitsExactly(inv: map<Slot, u64>, caps: map<Slot, u64>, r: Request, pending: nat)
    requires Get(inv, r.slot) + pending <= Get(caps, r.slot)
    ensures Get(Inject(inv, caps, r), r.slot) + pending <= Get(caps, r.slot) <==>
      Min(r.whole, Get(caps, r.slot) - Get(inv, r.slot)) <= Get(caps, r.slot) - Get(inv, r.slot) - pending
  {
  }

  /** On every run, stock and pending output fit every slot that is not both a source slot and an output slot. */
  lemma InRoomUnlessBoth(lay: Layout, sources: set<Slot>, ws: seq<Weather>, n: nat, s: Slot)
    requires LayoutOk(lay, sources) && WeathersOk(ws, sources) && n <= |ws|
    requires s !in sources || TotalSum(lay.ts, OutputTo(s)) == 0
    ensures InRoom(lay.caps, PlantAt(lay, ws, n), s)
  {
    PlantInvariant(lay, sources, ws, n);
    hide LayoutOk, PlantAt, ReservedExactly, StockExact, TagsExact, KeysExact, WeathersOk, TotalSum;
    assert SlotWithin(lay.ts, lay.caps, sources, PlantAt(lay, ws, n), s);
  }

  /** With one pourer under way for two ticks, topping the slot up on tick 2 leaves no room for its output. */
  lemma Overfilled(lay: Layout, s: Slot, rs: seq<Request>)
    requires PoursInto(lay, s, [1], 2) && s in lay.initial
    requires Get(lay.initial, s) + InjectedTo(lay.initial, lay.caps.storage, rs, s) >= Get(lay.caps.storage, s)
    requires forall i :: 0 <= i < |rs| ==> rs[i].slot == s
    ensures !InRoom(lay.caps, PlantAt(lay, TwoTicks(rs), 2), s)
  {
    FirstTick(lay, s, [1], 2, rs);
    SecondTickIs(lay, rs);
    assert [1][..1] == [1] && SumOf([1]) == 1;
    assert lay.ts == [Pourer(s, 0, 1, 2)];
    InjectionExact(lay.initial, lay.caps.storage, rs, s);
    hide PlantAt, Pourers, ProcessFirst, InjectAll, InjectedTo, Age, Consumed, Produced, SumOf, Name;
    StillRunning(lay, s, Found(lay, rs));
  }

  lemma StillRunning(lay: Layout, s: Slot, p: Plant)
    requires lay.ts == [Pourer(s, 0, 1, 2)] && StateOf(p, Name(0)) == Running(1, 1, 1)
    ensures var p' := ProcessFirst(lay.ts, |lay.ts|, lay.caps, map[], p, 2); p'.inv == p.inv && p'.pend == p.pend
  {
    var def := Pourer(s, 0, 1, 2);
    hide Name;
    ProcessUnfold(lay, 0, map[], p, 2);
    ProcessNone(lay, map[], p, 2);
    assert AdvanceMove(def, lay.caps, map[], p, 2) == Move(Running(1, 1, 1), Nothing, []);
  }

  lemma BothOverfill(caps: Caps, sources: set<Slot>, most: map<Slot, nat>, s: Slot)
    requires sources <= caps.storage.Keys && s in sources && Most(most, s) > 0 && caps.storage[s] > 0
    ensures !NeverOverfull(caps, sources, most, s)
  {
    assert SumOf([1]) == 1 by { assert [1][..0] == []; }
    var lay := Witness(caps, s, 0, [1], 2);
    var rs := TopUp(caps, sources, s);
    WitnessIs(caps, sources, most, s, 0, [1], 2);
    TopUpOk(caps, sources, s, lay.initial);
    Overfilled(lay, s, rs);
    hide Candidate, WeathersOk, InRoom, PlantAt, TwoTicks;
    assert 2 <= |TwoTicks(rs)| <= U64_MAX by { TwoTicksLength(rs); }
  }

  /**
   * Over all scenes with given capacities that keep units: a slot is never overfull if and only if it is not both
   * one that pressure pours into and one that a transform may deliver to.
   */
  lemma NeverOverfullExactly(caps: Caps, sources: set<Slot>, most: map<Slot, nat>, s: Slot)
    requires sources <= caps.storage.Keys && Fits(caps, sources, most) && s in caps.storage && caps.storage[s] > 0
    ensures NeverOverfull(caps, sources, most, s) <==> s !in sources || Most(most, s) == 0
  {
    hide Fits, InRoom, PlantAt, WeathersOk;
    if s in sources && Most(most, s) > 0 {
      BothOverfill(caps, sources, most, s);
    } else {
      forall lay: Layout, ws: seq<Weather>, n: nat | Candidate(lay, caps, sources, most) && WeathersOk(ws, sources) && n <= |ws|
        ensures |ws| <= U64_MAX && InRoom(caps, PlantAt(lay, ws, n), s)
      {
        CandidateOk(lay, caps, sources, most);
        RunUnfold(lay, ws, n, sources);
        assert TotalSum(lay.ts, OutputTo(s)) <= Most(most, s);
        InRoomUnlessBoth(lay, sources, ws, n, s);
      }
    }
  }
}
