/** What the runtime answers to a reply, and what it hands out, told from the history of a run alone. */
module Memories {
  import opened Base
  import opened Order
  import opened Lifecycle
  import opened AgentRuntimes
  import opened Protocol
  import opened ProtocolRuns

  // ---- The history, without any stored state ----

  /** The requests whose replies were applied, oldest first. */
  function AppliedIds(h: seq<Event>): seq<RequestId> {
    if h == [] then []
    else AppliedIds(h[..|h| - 1]) + if h[|h| - 1].AppliedReply? then [h[|h| - 1].id] else []
  }

  /** The request an event shows to have lapsed: the next attempt went out, it was given up, or its reply came late. */
  function LapsedBy(e: Event): seq<RequestId> {
    match e
    case Issued(id, _, _) => if id.attempt == 0 then [] else [id.(attempt := id.attempt - 1)]
    case AppliedReply(_, _) => []
    case GivenUp(id, _, _) => [id]
    case RetiredLate(id, _) => [id]
  }

  /** The requests that lapsed, oldest first. */
  function LapsedIds(h: seq<Event>): seq<RequestId> {
    if h == [] then [] else LapsedIds(h[..|h| - 1]) + LapsedBy(h[|h| - 1])
  }

  function IssuedIds(h: seq<Event>): seq<RequestId> {
    if h == [] then []
    else IssuedIds(h[..|h| - 1]) + if h[|h| - 1].Issued? then [h[|h| - 1].id] else []
  }

  lemma Recorded(h: seq<Event>, e: Event)
    ensures AppliedIds(h + [e]) == AppliedIds(h) + if e.AppliedReply? then [e.id] else []
    ensures LapsedIds(h + [e]) == LapsedIds(h) + LapsedBy(e)
    ensures IssuedIds(h + [e]) == IssuedIds(h) + if e.Issued? then [e.id] else []
    ensures forall id :: WasIssued(h + [e], id) <==> WasIssued(h, id) || (e.Issued? && e.id == id)
  {
    assert (h + [e])[..|h|] == h;
    HistoryGrows(h, e);
    forall id | WasIssued(h + [e], id) && !(e.Issued? && e.id == id) ensures WasIssued(h, id) {
      var t: u64, w: u32 :| Issued(id, t, w) in h + [e];
      assert Issued(id, t, w) in h;
    }
    if e.Issued? { assert Issued(e.id, e.tick, e.window) in h + [e]; }
  }

  /** Issued, and neither applied nor lapsed. */
  ghost predicate Awaits(h: seq<Event>, id: RequestId) {
    WasIssued(h, id) && id !in AppliedIds(h) && id !in LapsedIds(h)
  }

  function IdsOf(qs: seq<AgentRequest>): seq<RequestId> { seq(|qs|, i requires 0 <= i < |qs| => qs[i].id) }

  // ---- What the stored memories are ----

  /** The memories are the latest of those lists, and what is pending is the rest of what was issued. */
  ghost predicate Kept(l: Life, h: seq<Event>, applied: seq<RequestId>, lapsed: seq<RequestId>) {
    && l.completed == Last(applied, Max(1, l.completedCap))
    && l.expired == Last(lapsed, Max(1, l.expiredCap))
    && (forall id :: id in l.pending <==> WasIssued(h, id) && id !in applied && id !in lapsed)
    && (forall id :: id in applied ==> WasIssued(h, id) && id !in lapsed)
    && (forall id :: id in lapsed ==> WasIssued(h, id))
  }

  /** Mid-sweep, the ids in `rest` have lapsed and the history does not show it yet. */
  ghost predicate Remembers(l: Life, h: seq<Event>, rest: seq<RequestId>) {
    Kept(l, h, AppliedIds(h), LapsedIds(h) + rest)
  }

  /** Pending requests that lapse leave together for the memory of lapsed ones. */
  lemma Lapse(l: Life, h: seq<Event>, applied: seq<RequestId>, lapsed: seq<RequestId>, ids: seq<RequestId>, l': Life, h': seq<Event>)
    requires Kept(l, h, applied, lapsed) && (forall id :: id in ids ==> id in l.pending)
    requires (forall id :: id in l'.pending <==> id in l.pending && id !in ids)
    requires l'.completed == l.completed && l'.completedCap == l.completedCap && l'.expiredCap == l.expiredCap
    requires l'.expired == Last(lapsed + ids, Max(1, l.expiredCap))
    requires forall id :: WasIssued(h', id) <==> WasIssued(h, id)
    ensures Kept(l', h', applied, lapsed + ids)
  {
    hide WasIssued, Last;
    assert forall id :: id in lapsed + ids <==> id in lapsed || id in ids;
  }

  /** A pending request that is answered in time leaves for the memory of applied ones. */
  lemma Conclude(l: Life, h: seq<Event>, applied: seq<RequestId>, lapsed: seq<RequestId>, id: RequestId, h': seq<Event>)
    requires Kept(l, h, applied, lapsed) && id in l.pending
    requires forall x :: WasIssued(h', x) <==> WasIssued(h, x)
    ensures Kept(l.(pending := l.pending - {id}, completed := PushRing(l.completed, id, l.completedCap)), h', applied + [id], lapsed)
  {
    RingGrows(applied, id, l.completedCap);
    hide WasIssued, Last, PushRing;
    assert forall x :: x in applied + [id] <==> x in applied || x == id;
  }

  /** A request not issued before is pending from its issue on. */
  lemma Open(l: Life, h: seq<Event>, applied: seq<RequestId>, lapsed: seq<RequestId>, id: RequestId, entry: PendingEntry, h': seq<Event>)
    requires Kept(l, h, applied, lapsed) && !WasIssued(h, id)
    requires forall x :: WasIssued(h', x) <==> WasIssued(h, x) || x == id
    ensures Kept(l.(pending := l.pending[id := entry]), h', applied, lapsed)
  {
    hide WasIssued, Last;
  }

  lemma RingGrows(ids: seq<RequestId>, id: RequestId, cap: nat)
    ensures PushRing(Last(ids, Max(1, cap)), id, cap) == Last(ids + [id], Max(1, cap))
  {
    LastGrows(ids, Max(1, cap), id);
  }

  lemma FreshId(rt: Runtime, id: RequestId)
    requires Inv(rt) && id.timelineId >= rt.timeline.nextId
    ensures !WasIssued(rt.history, id)
  {
    InvLedger(rt);
    forall t: u64, w: u32 ensures Issued(id, t, w) !in rt.history {
    }
  }

  lemma IssueRemembers(l: Life, h: seq<Event>, e: Event, entry: PendingEntry)
    requires Remembers(l, h, []) && e.Issued? && e.id.attempt == 0 && !WasIssued(h, e.id)
    ensures Remembers(l.(pending := l.pending[e.id := entry]), h + [e], [])
  {
    Recorded(h, e);
    Open(l, h, AppliedIds(h), LapsedIds(h) + [], e.id, entry, h + [e]);
    hide Kept;
    assert AppliedIds(h + [e]) == AppliedIds(h) && LapsedIds(h + [e]) + [] == LapsedIds(h) + [];
  }

  lemma AskRemembers(rt: Runtime, agent: Id, observation: string, window: u32, now: u64)
    requires Inv(rt) && Remembers(rt.life, rt.history, [])
    ensures var rt' := EnqueueDecision(rt, agent, observation, window, now).0; Remembers(rt'.life, rt'.history, [])
  {
    if !HasPending(rt.life.pending, agent) {
      var q := AgentRequest(RequestId(rt.timeline.nextId, agent, now, 0), window, observation);
      hide Remembers, WasIssued, Inv, HasPending;
      FreshId(rt, q.id);
      IssueRemembers(rt.life, rt.history, Issued(q.id, now, window), PendingEntry(SatAdd(now, window), q));
    }
  }

  lemma ApplyRemembers(l: Life, h: seq<Event>, id: RequestId, now: u64)
    requires Remembers(l, h, []) && id in l.pending
    ensures Remembers(l.(pending := l.pending - {id}, completed := PushRing(l.completed, id, l.completedCap)), h + [AppliedReply(id, now)], [])
  {
    var h' := h + [AppliedReply(id, now)];
    Recorded(h, AppliedReply(id, now));
    hide WasIssued;
    Conclude(l, h, AppliedIds(h), LapsedIds(h) + [], id, h');
    hide Kept;
    assert LapsedIds(h') + [] == LapsedIds(h) + [];
  }

  lemma LateRemembers(l: Life, h: seq<Event>, id: RequestId, now: u64)
    requires Remembers(l, h, []) && id in l.pending
    ensures Remembers(l.(pending := l.pending - {id}, expired := PushRing(l.expired, id, l.expiredCap)), h + [RetiredLate(id, now)], [])
  {
    var h', l' := h + [RetiredLate(id, now)], l.(pending := l.pending - {id}, expired := PushRing(l.expired, id, l.expiredCap));
    Recorded(h, RetiredLate(id, now));
    RingGrows(LapsedIds(h) + [], id, l.expiredCap);
    hide WasIssued, PushRing, Last;
    assert forall x :: x in [id] <==> x == id;
    Lapse(l, h, AppliedIds(h), LapsedIds(h) + [], [id], l', h');
    hide Kept;
    assert LapsedIds(h') == LapsedIds(h) + [id];
    assert LapsedIds(h') + [] == LapsedIds(h) + [] + [id];
    assert AppliedIds(h') == AppliedIds(h) + [] == AppliedIds(h);
  }

  lemma AnswerRemembers(rt: Runtime, reply: AgentReply, now: u64)
    requires Inv(rt) && Remembers(rt.life, rt.history, [])
    ensures var rt' := ProcessReply(rt, reply, now).0; Remembers(rt'.life, rt'.history, [])
  {
    hide Remembers, Inv;
    ApplyRemembersIf(rt.life, rt.history, reply.id, now);
  }

  lemma ApplyRemembersIf(l: Life, h: seq<Event>, id: RequestId, now: u64)
    requires Remembers(l, h, [])
    ensures id in l.pending ==>
      && Remembers(l.(pending := l.pending - {id}, completed := PushRing(l.completed, id, l.completedCap)), h + [AppliedReply(id, now)], [])
      && Remembers(l.(pending := l.pending - {id}, expired := PushRing(l.expired, id, l.expiredCap)), h + [RetiredLate(id, now)], [])
  {
    hide Remembers;
    if id in l.pending {
      ApplyRemembers(l, h, id, now);
      LateRemembers(l, h, id, now);
    }
  }

  lemma {:induction false} RetireRing(l: Life, ids: seq<RequestId>, before: seq<RequestId>)
    requires (forall id :: id in ids ==> id in l.pending) && SortedBy(ids, AgentOf)
    requires l.expired == Last(before, Max(1, l.expiredCap))
    ensures Retire(l, ids).expired == Last(before + ids, Max(1, l.expiredCap))
    decreases ids
  {
    if ids == [] {
      assert before + ids == before;
    } else {
      var l' := l.(pending := l.pending - {ids[0]}, expired := PushRing(l.expired, ids[0], l.expiredCap));
      RingGrows(before, ids[0], l.expiredCap);
      forall j | j in ids[1..] ensures j in l'.pending {
        var k :| 1 <= k < |ids| && ids[k] == j;
        LessAsymmetric(AgentOf(ids[0]), AgentOf(ids[k]));
      }
      RetireRing(l', ids[1..], before + [ids[0]]);
      assert before + [ids[0]] + ids[1..] == before + ids;
    }
  }

  lemma LapsedAre(l: Life, now: u64)
    requires OnePerAgent(l.pending)
    ensures IdsOf(Lapsed(l, now)) == Listing(Overdue(l, now), AgentOf)
    ensures forall id :: id in IdsOf(Lapsed(l, now)) ==> id in l.pending
  {
    OverdueListed(l, now);
  }

  lemma SweptRing(l: Life, now: u64, before: seq<RequestId>)
    requires OnePerAgent(l.pending) && l.expired == Last(before, Max(1, l.expiredCap))
    ensures var ids := Listing(Overdue(l, now), AgentOf); var l' := ExpireIn(l, now).0;
      && (forall id :: id in l'.pending <==> id in l.pending && id !in ids)
      && l'.expired == Last(before + ids, Max(1, l.expiredCap))
      && l'.completed == l.completed && l'.completedCap == l.completedCap && l'.expiredCap == l.expiredCap
  {
    var ids := Listing(Overdue(l, now), AgentOf);
    OverdueListed(l, now);
    RetireRemoves(l, ids);
    RetireRing(l, ids, before);
  }

  lemma RetireRemembers(rt: Runtime, now: u64)
    requires OnePerAgent(rt.life.pending) && Remembers(rt.life, rt.history, [])
    ensures Remembers(ExpireIn(rt.life, now).0, rt.history, IdsOf(Lapsed(rt.life, now)))
  {
    hide *;
    var l, h := rt.life, rt.history;
    var rest, l' := IdsOf(Lapsed(l, now)), ExpireIn(l, now).0;
    LapsedAre(l, now);
    RemembersIs(l, h, []);
    KeptRings(l, h, AppliedIds(h), LapsedIds(h) + []);
    SweptRing(l, now, LapsedIds(h) + []);
    Lapse(l, h, AppliedIds(h), LapsedIds(h) + [], rest, l', h);
    assert LapsedIds(h) + [] + rest == LapsedIds(h) + rest;
    RemembersIs(l', h, rest);
  }

  lemma RemembersIs(l: Life, h: seq<Event>, rest: seq<RequestId>)
    ensures Remembers(l, h, rest) <==> Kept(l, h, AppliedIds(h), LapsedIds(h) + rest)
  {
    hide Kept;
  }

  lemma KeptRings(l: Life, h: seq<Event>, applied: seq<RequestId>, lapsed: seq<RequestId>)
    requires Kept(l, h, applied, lapsed)
    ensures l.expired == Last(lapsed, Max(1, l.expiredCap))
  {
  }

  lemma SettleHead(h: seq<Event>, ids: seq<RequestId>)
    requires ids != []
    ensures LapsedIds(h) + [ids[0]] + ids[1..] == LapsedIds(h) + ids
  {
  }

  lemma ReissueRemembers(l: Life, h: seq<Event>, ids: seq<RequestId>, e: Event, entry: PendingEntry)
    requires Remembers(l, h, ids) && ids != [] && e.Issued? && LapsedBy(e) == [ids[0]] && !WasIssued(h, e.id)
    ensures Remembers(l.(pending := l.pending[e.id := entry]), h + [e], ids[1..])
  {
    Recorded(h, e);
    SettleHead(h, ids);
    hide WasIssued, LapsedBy;
    Open(l, h, AppliedIds(h), LapsedIds(h) + ids, e.id, entry, h + [e]);
    hide Kept;
  }

  lemma GiveUpRemembers(l: Life, h: seq<Event>, ids: seq<RequestId>, e: Event)
    requires Remembers(l, h, ids) && ids != [] && e.GivenUp? && e.id == ids[0]
    ensures Remembers(l, h + [e], ids[1..])
  {
    Recorded(h, e);
    SettleHead(h, ids);
    hide WasIssued, Last;
  }

  lemma NotIssuedYet(rt: Runtime, rest: seq<AgentRequest>)
    requires Consistent(rt, rest) && rest != [] && rest[0].id.attempt < MAX_ATTEMPTS
    ensures !WasIssued(rt.history, NextAttempt(rest[0].id))
  {
    var live := Live(rt.life) + Among(rest);
    assert rest[0] in live;
    LiveReplace(rt.history, rt.timeline.nextId, live, rest[0]);
    forall t: u64, w: u32 ensures Issued(NextAttempt(rest[0].id), t, w) !in rt.history {
    }
  }

  /** What settling one lapsed request does to the lifecycle and the history. */
  lemma SettleIs(rt: Runtime, q: AgentRequest, now: u64) returns (e: Event)
    requires q.id.attempt < MAX_ATTEMPTS ==> !HasPending(rt.life.pending, q.id.agentId)
    ensures var rt' := Settle(rt, ExpiryOf(q, now), now).0; var next := q.(id := NextAttempt(q.id));
      && rt'.history == rt.history + [e] && LapsedBy(e) == [q.id]
      && (if q.id.attempt < MAX_ATTEMPTS
          then e == Issued(next.id, now, q.deadlineTicks)
               && rt'.life == rt.life.(pending := rt.life.pending[next.id := PendingEntry(SatAdd(now, q.deadlineTicks), next)])
          else e.GivenUp? && e.id == q.id && rt'.life == rt.life)
  {
    hide HasPending, FindOpen, RecordExpiry, ReissueEntry, GiveUpEntry, RecordFault, LagFrames;
    var rt' := Settle(rt, ExpiryOf(q, now), now).0;
    e := rt'.history[|rt.history|];
  }

  lemma RestIds(rest: seq<AgentRequest>)
    requires rest != []
    ensures IdsOf(rest) != [] && IdsOf(rest)[0] == rest[0].id && IdsOf(rest)[1..] == IdsOf(rest[1..])
  {
  }

  lemma SettleRemembers(rt: Runtime, rest: seq<AgentRequest>, now: u64)
    requires Consistent(rt, rest) && rest != [] && Remembers(rt.life, rt.history, IdsOf(rest))
    ensures var rt' := Settle(rt, ExpiryOf(rest[0], now), now).0; Remembers(rt'.life, rt'.history, IdsOf(rest[1..]))
  {
    hide *;
    var q := rest[0];
    RestIds(rest);
    if q.id.attempt < MAX_ATTEMPTS {
      ReissueUnopposed(rt, rest);
      NotIssuedYet(rt, rest);
    }
    var e := SettleIs(rt, q, now);
    if q.id.attempt < MAX_ATTEMPTS {
      ReissueRemembers(rt.life, rt.history, IdsOf(rest), e, Settle(rt, ExpiryOf(q, now), now).0.life.pending[NextAttempt(q.id)]);
    } else {
      GiveUpRemembers(rt.life, rt.history, IdsOf(rest), e);
    }
  }

  lemma {:induction false} SettleAllRemembers(rt: Runtime, rest: seq<AgentRequest>, outs: seq<ExpiryOutcome>, now: u64)
    requires Consistent(rt, rest) && Remembers(rt.life, rt.history, IdsOf(rest))
    requires |outs| == |rest| && forall i :: 0 <= i < |rest| ==> outs[i] == ExpiryOf(rest[i], now)
    ensures var rt' := SettleAll(rt, outs, now).0; Remembers(rt'.life, rt'.history, [])
    decreases rest
  {
    hide Remembers, Consistent, Settle, ExpiryOf;
    if rest == [] {
      assert IdsOf(rest) == [];
    } else {
      SettleKeeps(rt, rest, now);
      SettleRemembers(rt, rest, now);
      SettleAllRemembers(Settle(rt, outs[0], now).0, rest[1..], outs[1..], now);
    }
  }

  lemma StepRemembers(rt: Runtime, s: Timed)
    requires Inv(rt) && OnePerAgent(rt.life.pending) && Remembers(rt.life, rt.history, [])
    ensures Remembers(Next(rt, s).life, Next(rt, s).history, [])
  {
    hide Remembers, Inv, EnqueueDecision, ProcessReply, Lapsed;
    match s.step {
      case Ask(agent, observation, window) => AskRemembers(rt, agent, observation, window, s.now);
      case Forward =>
      case Answer(reply) => AnswerRemembers(rt, reply, s.now);
      case Sweep =>
        RetireRemembers(rt, s.now);
        RetireKeeps(rt, s.now);
        SettleAllRemembers(rt.(life := ExpireIn(rt.life, s.now).0), Lapsed(rt.life, s.now), ExpireIn(rt.life, s.now).1, s.now);
    }
  }

  lemma StepCaps(rt: Runtime, s: Timed)
    requires OnePerAgent(rt.life.pending)
    ensures Next(rt, s).life.completedCap == rt.life.completedCap && Next(rt, s).life.expiredCap == rt.life.expiredCap
  {
    if s.step.Sweep? {
      OverdueListed(rt.life, s.now);
      RetireRemoves(rt.life, Listing(Overdue(rt.life, s.now), AgentOf));
      SettleAllCaps(rt.(life := ExpireIn(rt.life, s.now).0), ExpireIn(rt.life, s.now).1, s.now);
    }
  }

  lemma {:induction false} SettleAllCaps(rt: Runtime, outs: seq<ExpiryOutcome>, now: u64)
    ensures var rt' := SettleAll(rt, outs, now).0; rt'.life.completedCap == rt.life.completedCap && rt'.life.expiredCap == rt.life.expiredCap
    decreases outs
  {
    if outs != [] { SettleAllCaps(Settle(rt, outs[0], now).0, outs[1..], now); }
  }

  /** How much a new runtime holds of decisions, applied requests and lapsed requests. */
  datatype Sizes = Sizes(timeline: nat, completed: nat, expired: nat)

  ghost function New(z: Sizes): (rt: Runtime)
    ensures Inv(rt) && rt.timeline.nextId == 1
  {
    Begun(z.timeline, z.completed, z.expired)
  }

  /** A run of a new runtime. */
  ghost function NewRun(z: Sizes, steps: seq<Timed>): Runtime
    requires 1 + |steps| <= U64_MAX
  {
    Run(New(z), steps)
  }

  lemma NewUnfold(z: Sizes, steps: seq<Timed>)
    requires 1 + |steps| <= U64_MAX
    ensures Inv(NewRun(z, steps)) && OnePerAgent(NewRun(z, steps).life.pending)
    ensures steps == [] ==> NewRun(z, steps) == New(z)
    ensures steps != [] ==>
      (var before := NewRun(z, steps[..|steps| - 1]); OnePerAgent(before.life.pending) && NewRun(z, steps) == Next(before, steps[|steps| - 1]))
  {
    InvOnePerAgent(NewRun(z, steps));
    if steps != [] { InvOnePerAgent(NewRun(z, steps[..|steps| - 1])); }
    hide Inv, Next, OnePerAgent;
  }

  lemma {:induction false} RunRemembers(z: Sizes, steps: seq<Timed>)
    requires 1 + |steps| <= U64_MAX
    ensures var end := NewRun(z, steps);
      Remembers(end.life, end.history, []) && end.life.completedCap == z.completed && end.life.expiredCap == z.expired
  {
    NewUnfold(z, steps);
    hide NewRun, Next, Inv, OnePerAgent;
    if steps != [] {
      hide Remembers;
      RunRemembers(z, steps[..|steps| - 1]);
      StepRemembers(NewRun(z, steps[..|steps| - 1]), steps[|steps| - 1]);
      StepCaps(NewRun(z, steps[..|steps| - 1]), steps[|steps| - 1]);
    } else {
      NothingRemembered(z);
    }
  }

  lemma NothingRemembered(z: Sizes)
    ensures var rt := New(z);
      Remembers(rt.life, rt.history, []) && rt.life.completedCap == z.completed && rt.life.expiredCap == z.expired
  {
  }

  // ---- What a reply is told ----

  /** Among the last `cap` of them, and at least the very last. */
  predicate Lately(ids: seq<RequestId>, cap: nat, id: RequestId) { id in Last(ids, Max(1, cap)) }

  lemma DeadlineIs(rt: Runtime, id: RequestId, now: u64)
    requires Inv(rt) && id in rt.life.pending
    ensures now <= rt.life.pending[id].deadlineAbs <==> OnTime(rt.history, id, now)
  {
    var entry := rt.life.pending[id];
    assert entry.request.id == id;
    InvLedger(rt);
    var h := rt.history;
    var t0: u64 :| Issued(id, t0, entry.request.deadlineTicks) in h && entry.deadlineAbs == SatAdd(t0, entry.request.deadlineTicks);
    var i :| 0 <= i < |h| && h[i] == Issued(id, t0, entry.request.deadlineTicks);
    if OnTime(h, id, now) {
      var t: u64, w: u32 :| Issued(id, t, w) in h && now <= SatAdd(t, w);
      var j :| 0 <= j < |h| && h[j] == Issued(id, t, w);
      assert i == j;
    }
  }

  lemma ReplyIs(rt: Runtime, z: Sizes, reply: AgentReply, now: u64)
    requires Inv(rt) && Remembers(rt.life, rt.history, []) && rt.life.completedCap == z.completed && rt.life.expiredCap == z.expired
    ensures var (next, out) := ProcessReply(rt, reply, now); var h, id := rt.history, reply.id;
      && (out == DropReply(Duplicate) <==> Lately(AppliedIds(h), z.completed, id))
      && ((out.DropReply? && out.why.Stale?) <==> Lately(LapsedIds(h), z.expired, id) || (Awaits(h, id) && !OnTime(h, id, now)))
      && (out == ApplyReply(id.timelineId, id.agentId, reply.chosen, reply.rationale) <==> Awaits(h, id) && OnTime(h, id, now))
      && (out == DropReply(UnknownId) <==> !Lately(AppliedIds(h), z.completed, id) && !Lately(LapsedIds(h), z.expired, id) && !Awaits(h, id))
      && (!WasIssued(h, id) ==> out == DropReply(UnknownId))
      && (!Awaits(h, id) ==> next == rt)
      && (out.DropReply? && out.why.Stale? && now < U32_RANGE ==> out.why.lag == Max(1, now - id.sourceTick))
  {
    var h, id := rt.history, reply.id;
    hide Inv, Remembers, AppliedIds, LapsedIds, WasIssued, OnTime, Lately, Awaits, ProcessReply;
    Recalled(rt, z, id);
    if id in rt.life.pending { DeadlineIs(rt, id, now); }
    ReplySorted(rt, reply, now);
  }

  /** What the stored memories answer about one id. */
  lemma Recalled(rt: Runtime, z: Sizes, id: RequestId)
    requires Remembers(rt.life, rt.history, []) && rt.life.completedCap == z.completed && rt.life.expiredCap == z.expired
    ensures var l, h := rt.life, rt.history;
      && (id in l.completed <==> Lately(AppliedIds(h), z.completed, id))
      && (id in l.expired <==> Lately(LapsedIds(h), z.expired, id))
      && (id in l.pending <==> Awaits(h, id))
      && !(id in l.completed && id in l.expired) && !(id in l.completed && id in l.pending) && !(id in l.expired && id in l.pending)
      && (id in l.completed || id in l.expired || id in l.pending ==> WasIssued(h, id))
  {
    LatelyAmong(AppliedIds(rt.history), z.completed, id);
    LatelyAmong(LapsedIds(rt.history), z.expired, id);
    assert LapsedIds(rt.history) + [] == LapsedIds(rt.history);
    hide AppliedIds, LapsedIds, WasIssued, Last;
  }

  /** What a reply is told, sorted by where its id is stored. */
  lemma ReplySorted(rt: Runtime, reply: AgentReply, now: u64)
    requires !(reply.id in rt.life.completed && reply.id in rt.life.expired)
    requires reply.id in rt.life.pending ==> reply.id !in rt.life.completed && reply.id !in rt.life.expired
    ensures var (next, out) := ProcessReply(rt, reply, now); var l, id := rt.life, reply.id;
      && (out == DropReply(Duplicate) <==> id in l.completed)
      && ((out.DropReply? && out.why.Stale?) <==> id in l.expired || (id in l.pending && now > l.pending[id].deadlineAbs))
      && (out == ApplyReply(id.timelineId, id.agentId, reply.chosen, reply.rationale) <==> id in l.pending && now <= l.pending[id].deadlineAbs)
      && (out == DropReply(UnknownId) <==> id !in l.completed && id !in l.expired && id !in l.pending)
      && (id !in l.pending ==> next == rt)
      && (out.DropReply? && out.why.Stale? && now < U32_RANGE ==> out.why.lag == Max(1, now - id.sourceTick))
  {
    hide RecordReply, PushRing;
  }

  /**
   * After any run of a new runtime, what a reply is told depends on the history alone. It is a duplicate exactly
   * if its request is one of the last applied, as many as the memory holds; stale if it is one of the last lapsed,
   * or still awaited and past its window; applied, with its own answer, if awaited and in its window; and unknown
   * otherwise, in particular if it was never issued. A refusal that is not of an awaited request changes nothing.
   */
  lemma ReplyTold(z: Sizes, steps: seq<Timed>, reply: AgentReply, now: u64)
    requires 1 + |steps| <= U64_MAX
    ensures var rt := NewRun(z, steps); var (next, out) := ProcessReply(rt, reply, now); var h, id := rt.history, reply.id;
      && (out == DropReply(Duplicate) <==> Lately(AppliedIds(h), z.completed, id))
      && ((out.DropReply? && out.why.Stale?) <==> Lately(LapsedIds(h), z.expired, id) || (Awaits(h, id) && !OnTime(h, id, now)))
      && (out == ApplyReply(id.timelineId, id.agentId, reply.chosen, reply.rationale) <==> Awaits(h, id) && OnTime(h, id, now))
      && (out == DropReply(UnknownId) <==> !Lately(AppliedIds(h), z.completed, id) && !Lately(LapsedIds(h), z.expired, id) && !Awaits(h, id))
      && (!WasIssued(h, id) ==> out == DropReply(UnknownId))
      && (!Awaits(h, id) ==> next == rt)
      && (out.DropReply? && out.why.Stale? && now < U32_RANGE ==> out.why.lag == Max(1, now - id.sourceTick))
  {
    hide *;
    RunRemembers(z, steps);
    NewUnfold(z, steps);
    ReplyIs(NewRun(z, steps), z, reply, now);
  }

  lemma LatelyAmong(ids: seq<RequestId>, cap: nat, id: RequestId)
    ensures Lately(ids, cap, id) ==> id in ids
  {
  }

  // ---- What a sweep reports ----

  /** What is reported of a lapsed request: its next attempt goes out, or its decision is given up. */
  ghost predicate SweptAs(o: ExpireOutcome, id: RequestId, now: u64) {
    if id.attempt < MAX_ATTEMPTS
    then o.Reissued? && o.id == id.timelineId && (now < U32_RANGE ==> o.lag == Max(1, now - id.sourceTick))
    else o.GaveUpOn?
  }

  lemma {:induction false} SettleAllReports(rt: Runtime, outs: seq<ExpiryOutcome>, now: u64)
    ensures var said := SettleAll(rt, outs, now).1;
      && |said| == |outs|
      && forall k :: 0 <= k < |outs| ==>
           (if outs[k].Reissue? then said[k] == Reissued(outs[k].next.id.timelineId, outs[k].lag) else said[k].GaveUpOn?)
    decreases outs
  {
    if outs != [] { SettleAllReports(Settle(rt, outs[0], now).0, outs[1..], now); }
    hide RecordExpiry, ReissueEntry, GiveUpEntry, RecordFault, EnqueueIn, FindOpen;
  }

  lemma LapsedReports(l: Life, now: u64)
    requires OnePerAgent(l.pending)
    ensures var ids, outs := Listing(Overdue(l, now), AgentOf), ExpireIn(l, now).1;
      && |outs| == |ids|
      && forall k :: 0 <= k < |ids| ==> ids[k] in l.pending && outs[k] == ExpiryOf(l.pending[ids[k]].request.(id := ids[k]), now)
  {
    OverdueListed(l, now);
    hide ExpiryOf, Listing, Overdue;
  }

  lemma OverdueIs(rt: Runtime, now: u64)
    requires Inv(rt) && Remembers(rt.life, rt.history, [])
    ensures forall id :: id in Overdue(rt.life, now) <==> Awaits(rt.history, id) && !OnTime(rt.history, id, now)
  {
    forall id ensures id in Overdue(rt.life, now) <==> Awaits(rt.history, id) && !OnTime(rt.history, id, now) {
      Recalled(rt, Sizes(0, rt.life.completedCap, rt.life.expiredCap), id);
      if id in rt.life.pending { DeadlineIs(rt, id, now); }
    }
    hide Inv, Remembers, Awaits, OnTime;
  }

  lemma ReportIs(said: ExpireOutcome, request: AgentRequest, now: u64)
    requires var out := ExpiryOf(request, now);
      if out.Reissue? then said == Reissued(out.next.id.timelineId, out.lag) else said.GaveUpOn?
    ensures SweptAs(said, request.id, now)
  {
  }

  /** A sweep reports, in the order of their agents, exactly the requests awaited past their window, each as it lapses. */
  lemma SweepTold(z: Sizes, steps: seq<Timed>, now: u64)
    requires 1 + |steps| <= U64_MAX
    ensures OnePerAgent(NewRun(z, steps).life.pending)
    ensures var rt := NewRun(z, steps); var said := ExpireAll(rt, now).1;
      exists ids: seq<RequestId> ::
        && SortedBy(ids, AgentOf) && (forall id :: id in ids <==> Awaits(rt.history, id) && !OnTime(rt.history, id, now))
        && |said| == |ids| && forall k :: 0 <= k < |ids| ==> SweptAs(said[k], ids[k], now)
  {
    hide *;
    var rt := NewRun(z, steps);
    RunRemembers(z, steps);
    NewUnfold(z, steps);
    OverdueIs(rt, now);
    OverdueListed(rt.life, now);
    LapsedReports(rt.life, now);
    var ids, outs := Listing(Overdue(rt.life, now), AgentOf), ExpireIn(rt.life, now).1;
    SettleAllReports(rt.(life := ExpireIn(rt.life, now).0), outs, now);
    SweepUnfold(rt, now);
    var said := ExpireAll(rt, now).1;
    forall k | 0 <= k < |ids| ensures SweptAs(said[k], ids[k], now) {
      ReportIs(said[k], rt.life.pending[ids[k]].request.(id := ids[k]), now);
    }
  }

  lemma SweepUnfold(rt: Runtime, now: u64)
    requires OnePerAgent(rt.life.pending)
    ensures ExpireAll(rt, now).1 == SettleAll(rt.(life := ExpireIn(rt.life, now).0), ExpireIn(rt.life, now).1, now).1
  {
    hide ExpireIn, SettleAll;
  }

  // ---- What is asked, handed out and given up ----

  /** Request q goes back to an Ask of its own agent, with the observation and the window given there. */
  ghost predicate AskedIn(steps: seq<Timed>, q: AgentRequest) {
    exists k :: 0 <= k < |steps| && steps[k] == Timed(Ask(q.id.agentId, q.observation, q.deadlineTicks), q.id.sourceTick)
  }

  /** The requests handed out by the forwards of a run, in order. */
  ghost function Sent(z: Sizes, steps: seq<Timed>): seq<AgentRequest>
    requires 1 + |steps| <= U64_MAX
  {
    if steps == [] then []
    else
      var before := steps[..|steps| - 1];
      Sent(z, before)
        + if steps[|steps| - 1].step.Forward? then NewRun(z, before).outbox else []
  }

  ghost predicate Faithful(rt: Runtime, steps: seq<Timed>, sent: seq<AgentRequest>, rest: seq<AgentRequest>) {
    && IdsOf(sent + rt.outbox) == IssuedIds(rt.history)
    && (forall q :: q in sent + rt.outbox ==> AskedIn(steps, q))
    && (forall id :: id in rt.life.pending ==> AskedIn(steps, rt.life.pending[id].request))
    && (forall q :: q in rest ==> AskedIn(steps, q))
    && (forall e :: e in rt.history && e.GivenUp? ==> e.id.attempt == MAX_ATTEMPTS)
  }

  lemma AskedLater(steps: seq<Timed>, s: Timed)
    ensures forall q :: AskedIn(steps, q) ==> AskedIn(steps + [s], q)
  {
    forall q | AskedIn(steps, q) ensures AskedIn(steps + [s], q) {
      var k :| 0 <= k < |steps| && steps[k] == Timed(Ask(q.id.agentId, q.observation, q.deadlineTicks), q.id.sourceTick);
      assert (steps + [s])[k] == steps[k];
    }
  }

  lemma IdsMore(qs: seq<AgentRequest>, q: AgentRequest)
    ensures IdsOf(qs + [q]) == IdsOf(qs) + [q.id]
  {
  }

  /** Issuing a request that goes back to an Ask. */
  lemma IssueFaithful(rt: Runtime, steps: seq<Timed>, sent: seq<AgentRequest>, rest: seq<AgentRequest>, q: AgentRequest, now: u64, rt': Runtime)
    requires Faithful(rt, steps, sent, rest) && AskedIn(steps, q)
    requires rt'.outbox == rt.outbox + [q] && rt'.history == rt.history + [Issued(q.id, now, q.deadlineTicks)]
    requires rt'.life.pending == rt.life.pending[q.id := PendingEntry(SatAdd(now, q.deadlineTicks), q)]
    ensures Faithful(rt', steps, sent, rest)
  {
    Recorded(rt.history, Issued(q.id, now, q.deadlineTicks));
    IdsMore(sent + rt.outbox, q);
    assert sent + rt'.outbox == sent + rt.outbox + [q];
    hide IssuedIds, AskedIn, IdsOf;
  }

  lemma AskedAlike(steps: seq<Timed>, q: AgentRequest, p: AgentRequest)
    requires AskedIn(steps, q) && p == q.(id := NextAttempt(q.id))
    ensures AskedIn(steps, p)
  {
  }

  lemma FewerRest(rt: Runtime, steps: seq<Timed>, sent: seq<AgentRequest>, rest: seq<AgentRequest>)
    requires Faithful(rt, steps, sent, rest) && rest != []
    ensures Faithful(rt, steps, sent, rest[1..])
  {
  }

  lemma SettleFaithful(rt: Runtime, steps: seq<Timed>, sent: seq<AgentRequest>, rest: seq<AgentRequest>, now: u64)
    requires Consistent(rt, rest) && rest != [] && Faithful(rt, steps, sent, rest)
    ensures Faithful(Settle(rt, ExpiryOf(rest[0], now), now).0, steps, sent, rest[1..])
  {
    var q := rest[0];
    var rt' := Settle(rt, ExpiryOf(q, now), now).0;
    assert q.id.attempt <= MAX_ATTEMPTS by { assert q in Live(rt.life) + Among(rest); }
    if q.id.attempt < MAX_ATTEMPTS {
      var next := q.(id := NextAttempt(q.id));
      ReissueUnopposed(rt, rest);
      AskedAlike(steps, q, next);
      hide Consistent, HasPending, Faithful, AskedIn;
      IssueFaithful(rt, steps, sent, rest, next, now, rt');
      FewerRest(rt', steps, sent, rest);
    } else {
      hide Consistent, Faithful;
      GiveUpFaithful(rt, steps, sent, rest, rt'.history[|rt.history|], rt');
    }
  }

  lemma GiveUpFaithful(rt: Runtime, steps: seq<Timed>, sent: seq<AgentRequest>, rest: seq<AgentRequest>, e: Event, rt': Runtime)
    requires Faithful(rt, steps, sent, rest) && rest != [] && e.GivenUp? && e.id.attempt == MAX_ATTEMPTS
    requires rt'.life == rt.life && rt'.outbox == rt.outbox && rt'.history == rt.history + [e]
    ensures Faithful(rt', steps, sent, rest[1..])
  {
    Recorded(rt.history, e);
    hide AskedIn, IssuedIds, IdsOf;
  }

  lemma {:induction false} SettleAllFaithful(
    rt: Runtime, steps: seq<Timed>, sent: seq<AgentRequest>, rest: seq<AgentRequest>, outs: seq<ExpiryOutcome>, now: u64)
    requires Consistent(rt, rest) && Faithful(rt, steps, sent, rest)
    requires |outs| == |rest| && forall i :: 0 <= i < |rest| ==> outs[i] == ExpiryOf(rest[i], now)
    ensures Faithful(SettleAll(rt, outs, now).0, steps, sent, [])
    decreases rest
  {
    hide Faithful, Consistent, Settle, ExpiryOf;
    if rest == [] {
    } else {
      SettleKeeps(rt, rest, now);
      SettleFaithful(rt, steps, sent, rest, now);
      SettleAllFaithful(Settle(rt, outs[0], now).0, steps, sent, rest[1..], outs[1..], now);
    }
  }

  lemma RestAsked(l: Life, steps: seq<Timed>, now: u64)
    requires OnePerAgent(l.pending) && forall id :: id in l.pending ==> l.pending[id].request.id == id && AskedIn(steps, l.pending[id].request)
    ensures forall q :: q in Lapsed(l, now) ==> AskedIn(steps, q)
  {
    hide AskedIn, OnePerAgent;
    LapsedAre(l, now);
    forall q | q in Lapsed(l, now) ensures AskedIn(steps, q) {
      var i :| 0 <= i < |Lapsed(l, now)| && Lapsed(l, now)[i] == q;
      assert IdsOf(Lapsed(l, now))[i] == q.id;
      assert l.pending[q.id].request == q;
    }
  }

  lemma OwnIds(rt: Runtime)
    requires Inv(rt)
    ensures forall id :: id in rt.life.pending ==> rt.life.pending[id].request.id == id
  {
  }

  lemma RetireFaithful(rt: Runtime, steps: seq<Timed>, sent: seq<AgentRequest>, now: u64)
    requires Inv(rt) && OnePerAgent(rt.life.pending) && Faithful(rt, steps, sent, [])
    ensures Faithful(rt.(life := ExpireIn(rt.life, now).0), steps, sent, Lapsed(rt.life, now))
  {
    hide AskedIn, IssuedIds, IdsOf, Inv, Lapsed, Listing, Overdue, OnePerAgent, ExpireIn;
    SweptLife(rt.life, now);
    OwnIds(rt);
    RestAsked(rt.life, steps, now);
  }

  lemma AskFaithful(rt: Runtime, steps: seq<Timed>, sent: seq<AgentRequest>, agent: Id, observation: string, window: u32, now: u64)
    requires Faithful(rt, steps, sent, [])
    ensures Faithful(EnqueueDecision(rt, agent, observation, window, now).0, steps + [Timed(Ask(agent, observation, window), now)], sent, [])
  {
    var s := Timed(Ask(agent, observation, window), now);
    AskedLater(steps, s);
    var rt' := EnqueueDecision(rt, agent, observation, window, now).0;
    if !HasPending(rt.life.pending, agent) {
      var q := AgentRequest(RequestId(rt.timeline.nextId, agent, now, 0), window, observation);
      assert (steps + [s])[|steps|] == s && AskedIn(steps + [s], q);
      hide AskedIn, HasPending;
      IssueFaithful(rt, steps + [s], sent, [], q, now, rt');
    }
  }

  lemma AnswerFaithful(rt: Runtime, steps: seq<Timed>, sent: seq<AgentRequest>, reply: AgentReply, now: u64)
    requires Faithful(rt, steps, sent, [])
    ensures Faithful(ProcessReply(rt, reply, now).0, steps, sent, [])
  {
    var rt' := ProcessReply(rt, reply, now).0;
    Recorded(rt.history, AppliedReply(reply.id, now));
    Recorded(rt.history, RetiredLate(reply.id, now));
    hide AskedIn, IssuedIds, IdsOf;
  }

  lemma LaterFaithful(rt: Runtime, steps: seq<Timed>, s: Timed, sent: seq<AgentRequest>)
    requires Faithful(rt, steps, sent, [])
    ensures Faithful(rt, steps + [s], sent, [])
  {
    AskedLater(steps, s);
    hide AskedIn, IdsOf, IssuedIds;
  }

  lemma StepFaithful(rt: Runtime, steps: seq<Timed>, s: Timed, sent: seq<AgentRequest>)
    requires Inv(rt) && OnePerAgent(rt.life.pending) && Faithful(rt, steps, sent, [])
    ensures Faithful(Next(rt, s), steps + [s], if s.step.Forward? then sent + rt.outbox else sent, [])
  {
    LaterFaithful(rt, steps, s, sent);
    hide Inv, EnqueueDecision, ProcessReply, Lapsed, OnePerAgent, AskedIn;
    match s.step {
      case Ask(agent, observation, window) => AskFaithful(rt, steps, sent, agent, observation, window, s.now);
      case Forward => assert sent + rt.outbox + [] == sent + rt.outbox;
      case Answer(reply) => AnswerFaithful(rt, steps + [s], sent, reply, s.now);
      case Sweep =>
        RetireFaithful(rt, steps + [s], sent, s.now);
        RetireKeeps(rt, s.now);
        SettleAllFaithful(rt.(life := ExpireIn(rt.life, s.now).0), steps + [s], sent, Lapsed(rt.life, s.now), ExpireIn(rt.life, s.now).1, s.now);
    }
  }

  /**
   * Over every run of a new runtime: what has been handed out and what waits in the outbox are the issued requests,
   * each once and in order; every request of a decision, whatever its attempt, carries the observation and the
   * window it was asked with; and only a third attempt is ever given up.
   */
  lemma {:induction false} RequestsFaithful(z: Sizes, steps: seq<Timed>)
    requires 1 + |steps| <= U64_MAX
    ensures Faithful(NewRun(z, steps), steps, Sent(z, steps), [])
  {
    hide *;
    NewUnfold(z, steps);
    SentUnfold(z, steps);
    if steps == [] {
      NothingSent(z);
    } else {
      var before, s := steps[..|steps| - 1], steps[|steps| - 1];
      NewUnfold(z, before);
      RequestsFaithful(z, before);
      StepFaithful(NewRun(z, before), before, s, Sent(z, before));
      assert before + [s] == steps;
    }
  }

  lemma SentUnfold(z: Sizes, steps: seq<Timed>)
    requires 1 + |steps| <= U64_MAX
    ensures Sent(z, steps) == if steps == [] then []
      else
        var before := steps[..|steps| - 1];
        if steps[|steps| - 1].step.Forward? then Sent(z, before) + NewRun(z, before).outbox else Sent(z, before)
  {
    hide NewRun;
  }

  lemma NothingSent(z: Sizes)
    ensures Faithful(New(z), [], [], [])
  {
  }

  lemma AskIs(rt: Runtime, agent: Id, observation: string, window: u32, now: u64)
    requires Remembers(rt.life, rt.history, [])
    ensures EnqueueDecision(rt, agent, observation, window, now).1
      == if exists id :: Awaits(rt.history, id) && id.agentId == agent then Dropped(1) else Accepted(rt.timeline.nextId)
  {
    assert LapsedIds(rt.history) + [] == LapsedIds(rt.history);
    hide Last, AppliedIds, LapsedIds, WasIssued;
    assert forall id :: id in rt.life.pending <==> Awaits(rt.history, id);
    hide Awaits, Remembers;
    assert HasPending(rt.life.pending, agent) <==> exists id :: Awaits(rt.history, id) && id.agentId == agent;
  }

  /** An agent is refused exactly while a request of its own is awaited; otherwise it gets the next id. */
  lemma AskTold(z: Sizes, steps: seq<Timed>, agent: Id, observation: string, window: u32, now: u64)
    requires 1 + |steps| <= U64_MAX
    ensures var rt := NewRun(z, steps);
      EnqueueDecision(rt, agent, observation, window, now).1
        == if exists id :: Awaits(rt.history, id) && id.agentId == agent then Dropped(1) else Accepted(rt.timeline.nextId)
  {
    hide *;
    RunRemembers(z, steps);
    AskIs(NewRun(z, steps), agent, observation, window, now);
  }
}
