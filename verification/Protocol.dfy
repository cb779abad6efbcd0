/** Runs of the request/reply protocol, against an environment that may delay, repeat, reorder or invent replies. */
module Protocol {
  import opened Base
  import opened Order
  import opened Lifecycle
  import opened AgentRuntimes

  datatype Step = Ask(agent: Id, observation: string, window: u32) | Forward | Answer(reply: AgentReply) | Sweep
  datatype Timed = Timed(step: Step, now: u64)

  ghost function Next(rt: Runtime, s: Timed): Runtime
    requires OnePerAgent(rt.life.pending)
  {
    match s.step
    case Ask(agent, observation, window) => EnqueueDecision(rt, agent, observation, window, s.now).0
    case Forward => rt.(outbox := [])
    case Answer(reply) => ProcessReply(rt, reply, s.now).0
    case Sweep => ExpireAll(rt, s.now).0
  }

  // ---- Ledger: what the history says about each decision ----

  predicate IsEnd(e: Event) { !e.Issued? }

  /** How often a decision came to an end: applied, given up, or retired by a reply that came late. */
  function Ends(h: seq<Event>, decision: u64): nat {
    if h == [] then 0
    else
      var e := h[|h| - 1];
      Ends(h[..|h| - 1], decision) + if IsEnd(e) && e.id.timelineId == decision then 1 else 0
  }

  ghost predicate OnTime(h: seq<Event>, id: RequestId, now: u64) {
    exists t: u64, w: u32 :: Issued(id, t, w) in h && now <= SatAdd(t, w)
  }

  ghost predicate LiveDecision(live: set<AgentRequest>, decision: u64) {
    exists q :: q in live && q.id.timelineId == decision
  }

  ghost predicate Known(h: seq<Event>, q: AgentRequest) {
    exists t: u64 :: Issued(q.id, t, q.deadlineTicks) in h
  }

  /** An earlier issue of the same decision: same agent, source and window, no later attempt. */
  ghost predicate Earlier(e: Event, q: AgentRequest)
    requires e.Issued?
  {
    e.id.agentId == q.id.agentId && e.id.sourceTick == q.id.sourceTick && e.id.attempt <= q.id.attempt && e.window == q.deadlineTicks
  }

  ghost predicate LiveLedger(h: seq<Event>, nextId: nat, live: set<AgentRequest>) {
    && (forall q, p :: q in live && p in live && (q.id.agentId == p.id.agentId || q.id.timelineId == p.id.timelineId) ==> q == p)
    && (forall q :: q in live ==> q.id.attempt <= MAX_ATTEMPTS && 0 < q.id.timelineId < nextId && Ends(h, q.id.timelineId) == 0 && Known(h, q))
    && (forall e, q :: e in h && e.Issued? && q in live && e.id.timelineId == q.id.timelineId ==> Earlier(e, q))
  }

  ghost predicate EventLedger(h: seq<Event>, nextId: nat, live: set<AgentRequest>) {
    && nextId > 0
    && (forall d: u64 :: Ends(h, d) <= 1)
    && (forall e :: e in h ==> 0 < e.id.timelineId < nextId && e.id.attempt <= MAX_ATTEMPTS)
    && (forall e :: e in h && e.Issued? ==> Ends(h, e.id.timelineId) == 1 || LiveDecision(live, e.id.timelineId))
    && (forall i, j :: 0 <= i < j < |h| && h[i].Issued? && h[j].Issued? ==> h[i].id != h[j].id)
    && (forall e :: e in h && e.AppliedReply? ==> OnTime(h, e.id, e.tick))
    && (forall e, f :: e in h && f in h && e.Issued? && f.Issued? && e.id.timelineId == f.id.timelineId ==> SameDecision(e, f))
  }

  ghost predicate SameDecision(e: Event, f: Event)
    requires e.Issued? && f.Issued?
  {
    e.id.agentId == f.id.agentId && e.id.sourceTick == f.id.sourceTick && e.window == f.window
  }

  ghost predicate Ledger(h: seq<Event>, nextId: nat, live: set<AgentRequest>) {
    LiveLedger(h, nextId, live) && EventLedger(h, nextId, live)
  }

  lemma EndsAppend(h: seq<Event>, e: Event)
    ensures forall d: u64 :: Ends(h + [e], d) == Ends(h, d) + if IsEnd(e) && e.id.timelineId == d then 1 else 0
  {
    assert (h + [e])[..|h|] == h;
  }

  lemma {:induction false} NoEndsBefore(h: seq<Event>, d: u64)
    requires forall e :: e in h ==> e.id.timelineId != d
    ensures Ends(h, d) == 0
  {
    if h != [] {
      assert h[|h| - 1] in h;
      NoEndsBefore(h[..|h| - 1], d);
    }
  }

  lemma LedgerGrows(h: seq<Event>, e: Event)
    ensures forall q :: Known(h, q) ==> Known(h + [e], q)
    ensures forall id, now :: OnTime(h, id, now) ==> OnTime(h + [e], id, now)
  {
    forall q | Known(h, q) ensures Known(h + [e], q) {
      var t: u64 :| Issued(q.id, t, q.deadlineTicks) in h;
      assert Issued(q.id, t, q.deadlineTicks) in h + [e];
    }
    forall id, now: u64 | OnTime(h, id, now) ensures OnTime(h + [e], id, now) {
      var t: u64, w: u32 :| Issued(id, t, w) in h && now <= SatAdd(t, w);
      assert Issued(id, t, w) in h + [e];
    }
  }

  lemma LiveEnd(h: seq<Event>, nextId: nat, live: set<AgentRequest>, q: AgentRequest, e: Event)
    requires LiveLedger(h, nextId, live) && q in live
    requires IsEnd(e) && e.id == q.id
    ensures LiveLedger(h + [e], nextId, live - {q})
  {
    EndsAppend(h, e);
    LedgerGrows(h, e);
  }

  lemma EventEnd(h: seq<Event>, nextId: nat, live: set<AgentRequest>, q: AgentRequest, e: Event)
    requires EventLedger(h, nextId, live)
    requires IsEnd(e) && e.id == q.id && q.id.attempt <= MAX_ATTEMPTS && 0 < q.id.timelineId < nextId && Ends(h, q.id.timelineId) == 0
    requires e.AppliedReply? ==> OnTime(h, q.id, e.tick)
    ensures EventLedger(h + [e], nextId, live - {q})
  {
    EndsAppend(h, e);
    LedgerGrows(h, e);
    forall e' | e' in h + [e] && e'.Issued?
      ensures Ends(h + [e], e'.id.timelineId) == 1 || LiveDecision(live - {q}, e'.id.timelineId)
    {
      if Ends(h, e'.id.timelineId) != 1 && e'.id.timelineId != q.id.timelineId {
        var p :| p in live && p.id.timelineId == e'.id.timelineId;
        assert p in live - {q};
      }
    }
  }

  lemma LedgerEnd(h: seq<Event>, nextId: nat, live: set<AgentRequest>, q: AgentRequest, e: Event)
    requires Ledger(h, nextId, live) && q in live
    requires IsEnd(e) && e.id == q.id
    requires e.AppliedReply? ==> OnTime(h, q.id, e.tick)
    ensures Ledger(h + [e], nextId, live - {q})
  {
    LiveEnd(h, nextId, live, q, e);
    EventEnd(h, nextId, live, q, e);
  }

  /** Sending q adds it to the live requests, provided no live request is its rival and it is the newest of its decision. */
  lemma LiveIssue(h: seq<Event>, nextId: nat, live: set<AgentRequest>, q: AgentRequest, now: u64)
    requires LiveLedger(h, nextId, live)
    requires 0 < q.id.timelineId < nextId && q.id.attempt <= MAX_ATTEMPTS && Ends(h, q.id.timelineId) == 0
    requires forall p :: p in live ==> p.id.agentId != q.id.agentId && p.id.timelineId != q.id.timelineId
    requires forall e :: e in h && e.Issued? && e.id.timelineId == q.id.timelineId ==> Earlier(e, q)
    ensures LiveLedger(h + [Issued(q.id, now, q.deadlineTicks)], nextId, live + {q})
  {
    var e := Issued(q.id, now, q.deadlineTicks);
    EndsAppend(h, e);
    LedgerGrows(h, e);
    assert e in h + [e];
    hide Ends;
    forall p | p in live + {q}
      ensures p.id.attempt <= MAX_ATTEMPTS && 0 < p.id.timelineId < nextId && Ends(h + [e], p.id.timelineId) == 0 && Known(h + [e], p)
    {
      assert p == q || p in live;
    }
    forall e', p | e' in h + [e] && e'.Issued? && p in live + {q} && e'.id.timelineId == p.id.timelineId
      ensures Earlier(e', p)
    {
      if e' == e {
        assert p == q;
      } else {
        assert e' in h && (p == q || p in live);
      }
    }
  }

  lemma EventIssue(h: seq<Event>, nextId: nat, live: set<AgentRequest>, live': set<AgentRequest>, q: AgentRequest, now: u64)
    requires EventLedger(h, nextId, live)
    requires 0 < q.id.timelineId < nextId && q.id.attempt <= MAX_ATTEMPTS && q in live'
    requires forall d :: LiveDecision(live, d) ==> LiveDecision(live', d)
    requires forall e :: e in h && e.Issued? ==> e.id != q.id
    requires forall e :: e in h && e.Issued? && e.id.timelineId == q.id.timelineId ==> Earlier(e, q)
    ensures EventLedger(h + [Issued(q.id, now, q.deadlineTicks)], nextId, live')
  {
    var e := Issued(q.id, now, q.deadlineTicks);
    EndsAppend(h, e);
    LedgerGrows(h, e);
    forall i, j | 0 <= i < j < |h + [e]| && (h + [e])[i].Issued? && (h + [e])[j].Issued?
      ensures (h + [e])[i].id != (h + [e])[j].id
    {
      if j == |h| { assert h[i] in h; }
    }
    forall x, y | x in h + [e] && y in h + [e] && x.Issued? && y.Issued? && x.id.timelineId == y.id.timelineId
      ensures SameDecision(x, y)
    {
      assert (x == e || x in h) && (y == e || y in h);
    }
  }

  lemma LedgerAsk(h: seq<Event>, nextId: nat, live: set<AgentRequest>, q: AgentRequest, now: u64)
    requires Ledger(h, nextId, live)
    requires q.id.timelineId == nextId > 0 && q.id.attempt == 0
    requires forall p :: p in live ==> p.id.agentId != q.id.agentId
    ensures Ledger(h + [Issued(q.id, now, q.deadlineTicks)], nextId + 1, live + {q})
  {
    NoEndsBefore(h, q.id.timelineId);
    LiveIssue(h, nextId + 1, live, q, now);
    forall d | LiveDecision(live, d) ensures LiveDecision(live + {q}, d) {
      var p :| p in live && p.id.timelineId == d;
      assert p in live + {q};
    }
    EventIssue(h, nextId + 1, live, live + {q}, q, now);
  }

  /** The next attempt of a live request has no rival once that request is gone, and nothing issued is newer. */
  lemma LiveReplace(h: seq<Event>, nextId: nat, live: set<AgentRequest>, q: AgentRequest)
    requires LiveLedger(h, nextId, live) && q in live && q.id.attempt < MAX_ATTEMPTS
    ensures var q' := q.(id := NextAttempt(q.id));
      && LiveLedger(h, nextId, live - {q})
      && 0 < q'.id.timelineId < nextId && q'.id.attempt <= MAX_ATTEMPTS && Ends(h, q'.id.timelineId) == 0
      && (forall p :: p in live - {q} ==> p.id.agentId != q'.id.agentId && p.id.timelineId != q'.id.timelineId)
      && (forall e :: e in h && e.Issued? && e.id.timelineId == q'.id.timelineId ==> Earlier(e, q') && e.id != q'.id)
  {
    var q' := q.(id := NextAttempt(q.id));
    forall e | e in h && e.Issued? && e.id.timelineId == q'.id.timelineId ensures Earlier(e, q') && e.id != q'.id {
      assert Earlier(e, q);
    }
  }

  lemma LedgerReissue(h: seq<Event>, nextId: nat, live: set<AgentRequest>, q: AgentRequest, now: u64)
    requires Ledger(h, nextId, live) && q in live && q.id.attempt < MAX_ATTEMPTS
    ensures var q' := q.(id := NextAttempt(q.id));
      Ledger(h + [Issued(q'.id, now, q'.deadlineTicks)], nextId, live - {q} + {q'})
  {
    var q' := q.(id := NextAttempt(q.id));
    var live' := live - {q} + {q'};
    LiveReplace(h, nextId, live, q);
    LiveIssue(h, nextId, live - {q}, q', now);
    forall d | LiveDecision(live, d) ensures LiveDecision(live', d) {
      var p :| p in live && p.id.timelineId == d;
      assert p == q || p in live';
      assert q' in live';
    }
    EventIssue(h, nextId, live, live', q', now);
  }

  // ---- The invariant of every run ----

  ghost predicate WasIssued(h: seq<Event>, id: RequestId) {
    exists t: u64, w: u32 :: Issued(id, t, w) in h
  }

  ghost predicate DeadlineKnown(h: seq<Event>, entry: PendingEntry) {
    exists t: u64 :: Issued(entry.request.id, t, entry.request.deadlineTicks) in h && entry.deadlineAbs == SatAdd(t, entry.request.deadlineTicks)
  }

  ghost function Live(l: Life): set<AgentRequest> {
    set id | id in l.pending :: l.pending[id].request
  }

  ghost predicate Tracked(rt: Runtime) {
    forall id :: id in rt.life.pending ==>
      rt.life.pending[id].request.id == id && DeadlineKnown(rt.history, rt.life.pending[id])
  }

  /** The two memories only hold issued ids that are no longer awaited. */
  ghost predicate Spent(rt: Runtime) {
    forall id :: id in rt.life.completed || id in rt.life.expired ==> id !in rt.life.pending && WasIssued(rt.history, id)
  }

  ghost function Among(rest: seq<AgentRequest>): set<AgentRequest> {
    set q | q in rest
  }

  lemma AmongRest(live: set<AgentRequest>, rest: seq<AgentRequest>)
    requires rest != []
    requires forall q :: q in rest ==> q !in live
    requires forall i, j :: 0 <= i < j < |rest| ==> rest[i] != rest[j]
    ensures rest[0] in Among(rest) && live + Among(rest[1..]) == live + Among(rest) - {rest[0]}
  {
    assert rest == [rest[0]] + rest[1..];
    assert rest[0] !in rest[1..];
  }

  /** Mid-sweep, `rest` are the requests already taken out of `pending` and not yet settled. */
  ghost predicate Consistent(rt: Runtime, rest: seq<AgentRequest>) {
    && Tracked(rt) && Spent(rt)
    && Ledger(rt.history, rt.timeline.nextId, Live(rt.life) + Among(rest))
    && (forall q :: q in rest ==> q !in Live(rt.life))
    && (forall i, j :: 0 <= i < j < |rest| ==> rest[i] != rest[j])
  }

  ghost predicate Inv(rt: Runtime) { Consistent(rt, []) }

  lemma LiveIn(l: Life, id: RequestId)
    requires id in l.pending
    ensures l.pending[id].request in Live(l)
  {
  }

  lemma InvOnePerAgent(rt: Runtime)
    requires Inv(rt)
    ensures OnePerAgent(rt.life.pending)
  {
    forall a, b | a in rt.life.pending && b in rt.life.pending && AgentOf(a) == AgentOf(b) ensures a == b {
      LiveIn(rt.life, a);
      LiveIn(rt.life, b);
      assert rt.life.pending[a].request in Live(rt.life) + Among([]);
      assert rt.life.pending[b].request in Live(rt.life) + Among([]);
    }
  }

  lemma HistoryGrows(h: seq<Event>, e: Event)
    ensures forall id :: WasIssued(h, id) ==> WasIssued(h + [e], id)
    ensures forall entry :: DeadlineKnown(h, entry) ==> DeadlineKnown(h + [e], entry)
  {
    forall id | WasIssued(h, id) ensures WasIssued(h + [e], id) {
      var t: u64, w: u32 :| Issued(id, t, w) in h;
      assert Issued(id, t, w) in h + [e];
    }
    forall entry | DeadlineKnown(h, entry) ensures DeadlineKnown(h + [e], entry) {
      var t: u64 :| Issued(entry.request.id, t, entry.request.deadlineTicks) in h && entry.deadlineAbs == SatAdd(t, entry.request.deadlineTicks);
      assert Issued(entry.request.id, t, entry.request.deadlineTicks) in h + [e];
    }
  }

  /** What issuing request q does to the bookkeeping, whether it is a first attempt or a later one. */
  lemma TrackIssue(rt: Runtime, q: AgentRequest, now: u64, rt': Runtime)
    requires Tracked(rt) && Spent(rt)
    requires forall e :: e in rt.history && e.Issued? ==> e.id != q.id
    requires q.id !in rt.life.pending
    requires rt'.life == rt.life.(pending := rt.life.pending[q.id := PendingEntry(SatAdd(now, q.deadlineTicks), q)])
    requires rt'.history == rt.history + [Issued(q.id, now, q.deadlineTicks)]
    ensures Tracked(rt') && Spent(rt')
    ensures Live(rt'.life) == Live(rt.life) + {q}
  {
    var e := Issued(q.id, now, q.deadlineTicks);
    HistoryGrows(rt.history, e);
    assert e in rt'.history;
    assert DeadlineKnown(rt'.history, rt'.life.pending[q.id]);
    assert rt'.life.pending[q.id].request == q;
    forall p | p in Live(rt.life) ensures p in Live(rt'.life) {
      var id :| id in rt.life.pending && rt.life.pending[id].request == p;
      assert rt'.life.pending[id].request == p;
    }
  }

  lemma AskKeeps(rt: Runtime, agent: Id, observation: string, window: u32, now: u64)
    requires Inv(rt) && rt.timeline.nextId < U64_MAX
    ensures Inv(EnqueueDecision(rt, agent, observation, window, now).0)
  {
    if !HasPending(rt.life.pending, agent) {
      var q := AgentRequest(RequestId(rt.timeline.nextId, agent, now, 0), window, observation);
      var rt' := EnqueueDecision(rt, agent, observation, window, now).0;
      assert Live(rt.life) + Among([]) == Live(rt.life);
      forall p | p in Live(rt.life) ensures p.id.agentId != agent {
        var id :| id in rt.life.pending && rt.life.pending[id].request == p;
      }
      LedgerAsk(rt.history, rt.timeline.nextId, Live(rt.life), q, now);
      forall e | e in rt.history && e.Issued? ensures e.id != q.id {
        assert e.id.timelineId < rt.timeline.nextId;
      }
      TrackIssue(rt, q, now, rt');
      assert Live(rt'.life) + Among([]) == Live(rt.life) + {q};
    }
  }

  /** What taking the pending request `id` out of play does to the bookkeeping. */
  lemma TrackEnd(rt: Runtime, id: RequestId, e: Event, rt': Runtime)
    requires Tracked(rt) && Spent(rt) && id in rt.life.pending
    requires rt'.life.pending == rt.life.pending - {id}
    requires forall x :: x in rt'.life.completed || x in rt'.life.expired ==> x == id || x in rt.life.completed || x in rt.life.expired
    requires rt'.history == rt.history + [e]
    ensures Tracked(rt') && Spent(rt')
    ensures Live(rt'.life) == Live(rt.life) - {rt.life.pending[id].request}
  {
    HistoryGrows(rt.history, e);
    var q := rt.life.pending[id].request;
    assert WasIssued(rt.history, id) by {
      assert DeadlineKnown(rt.history, rt.life.pending[id]);
      var t: u64 :| Issued(q.id, t, q.deadlineTicks) in rt.history;
    }
    forall p ensures p in Live(rt'.life) <==> p in Live(rt.life) && p != q {
      if p in Live(rt.life) && p != q {
        var k :| k in rt.life.pending && rt.life.pending[k].request == p;
        assert rt'.life.pending[k].request == p;
      }
    }
  }

  lemma AnswerKeeps(rt: Runtime, reply: AgentReply, now: u64)
    requires Inv(rt)
    ensures Inv(ProcessReply(rt, reply, now).0)
  {
    var id := reply.id;
    if id !in rt.life.completed && id !in rt.life.expired && id in rt.life.pending {
      var rt' := ProcessReply(rt, reply, now).0;
      var q := rt.life.pending[id].request;
      var live := Live(rt.life);
      assert live + Among([]) == live;
      var e := if now <= rt.life.pending[id].deadlineAbs then AppliedReply(id, now) else RetiredLate(id, now);
      if e.AppliedReply? {
        var t: u64 :| Issued(q.id, t, q.deadlineTicks) in rt.history && rt.life.pending[id].deadlineAbs == SatAdd(t, q.deadlineTicks);
        assert OnTime(rt.history, id, now);
      }
      LedgerEnd(rt.history, rt.timeline.nextId, live, q, e);
      TrackEnd(rt, id, e, rt');
      assert Live(rt'.life) + Among([]) == live - {q};
    }
  }

  /** A request just expired finds its agent free: reissuing it never meets backpressure. */
  lemma ReissueUnopposed(rt: Runtime, rest: seq<AgentRequest>)
    requires Consistent(rt, rest) && rest != []
    ensures !HasPending(rt.life.pending, rest[0].id.agentId)
  {
    var all := Live(rt.life) + Among(rest);
    assert rest[0] in all;
    forall id | id in rt.life.pending ensures id.agentId != rest[0].id.agentId {
      LiveIn(rt.life, id);
      assert rt.life.pending[id].request in all;
    }
  }

  lemma SettleReissue(rt: Runtime, rest: seq<AgentRequest>, now: u64, q': AgentRequest, rt': Runtime)
    requires Consistent(rt, rest) && rest != [] && rest[0].id.attempt < MAX_ATTEMPTS
    requires q' == rest[0].(id := NextAttempt(rest[0].id))
    requires rt'.life == rt.life.(pending := rt.life.pending[q'.id := PendingEntry(SatAdd(now, q'.deadlineTicks), q')])
    requires rt'.history == rt.history + [Issued(q'.id, now, q'.deadlineTicks)] && rt'.timeline.nextId == rt.timeline.nextId
    ensures Consistent(rt', rest[1..])
  {
    var q := rest[0];
    var live := Live(rt.life) + Among(rest);
    AmongRest(Live(rt.life), rest);
    LedgerReissue(rt.history, rt.timeline.nextId, live, q, now);
    assert q in live;
    forall e | e in rt.history && e.Issued? ensures e.id != q'.id {
      if e.id.timelineId == q.id.timelineId { assert Earlier(e, q); }
    }
    ReissueUnopposed(rt, rest);
    TrackIssue(rt, q', now, rt');
    assert Live(rt'.life) + Among(rest[1..]) == live - {q} + {q'};
    forall p | p in rest[1..] ensures p !in Live(rt'.life) {
      assert p in Among(rest) && p in live;
      assert p in live - {q};
    }
  }

  lemma SettleGiveUp(rt: Runtime, rest: seq<AgentRequest>, e: Event, rt': Runtime)
    requires Consistent(rt, rest) && rest != []
    requires e.GivenUp? && e.id == rest[0].id
    requires rt'.life == rt.life && rt'.history == rt.history + [e] && rt'.timeline.nextId == rt.timeline.nextId
    ensures Consistent(rt', rest[1..])
  {
    AmongRest(Live(rt.life), rest);
    LedgerEnd(rt.history, rt.timeline.nextId, Live(rt.life) + Among(rest), rest[0], e);
    HistoryGrows(rt.history, e);
  }

  lemma SettleKeeps(rt: Runtime, rest: seq<AgentRequest>, now: u64)
    requires Consistent(rt, rest) && rest != []
    ensures Consistent(Settle(rt, ExpiryOf(rest[0], now), now).0, rest[1..])
  {
    var q := rest[0];
    var rt' := Settle(rt, ExpiryOf(q, now), now).0;
    if q.id.attempt < MAX_ATTEMPTS {
      ReissueUnopposed(rt, rest);
      SettleReissue(rt, rest, now, q.(id := NextAttempt(q.id)), rt');
    } else {
      SettleGiveUp(rt, rest, rt'.history[|rt.history|], rt');
    }
  }

  lemma {:induction false} SettleAllKeeps(rt: Runtime, rest: seq<AgentRequest>, outs: seq<ExpiryOutcome>, now: u64)
    requires Consistent(rt, rest)
    requires |outs| == |rest| && forall i :: 0 <= i < |rest| ==> outs[i] == ExpiryOf(rest[i], now)
    ensures Inv(SettleAll(rt, outs, now).0)
    decreases rest
  {
    if rest != [] {
      SettleKeeps(rt, rest, now);
      SettleAllKeeps(Settle(rt, outs[0], now).0, rest[1..], outs[1..], now);
    }
  }

  lemma LapsedDiffer(l: Life, now: u64, i: nat, j: nat)
    requires OnePerAgent(l.pending) && i < j < |Lapsed(l, now)|
    ensures Lapsed(l, now)[i] != Lapsed(l, now)[j]
  {
    var ids := Listing(Overdue(l, now), AgentOf);
    OverdueListed(l, now);
    LessAsymmetric(AgentOf(ids[i]), AgentOf(ids[j]));
    assert Lapsed(l, now)[i].id == ids[i] && Lapsed(l, now)[j].id == ids[j];
  }

  /** Pending requests that were overdue may move to the memory of expired ones. */
  lemma RetireTracks(rt: Runtime, gone: set<RequestId>, l: Life)
    requires Tracked(rt) && Spent(rt) && gone <= rt.life.pending.Keys
    requires l.pending == rt.life.pending - gone && l.completed == rt.life.completed
    requires forall id :: id in l.expired ==> id in rt.life.expired || id in gone
    ensures Tracked(rt.(life := l)) && Spent(rt.(life := l))
  {
    forall id | id in rt.life.pending ensures WasIssued(rt.history, id) {
      var q := rt.life.pending[id].request;
      var t: u64 :| Issued(q.id, t, q.deadlineTicks) in rt.history;
    }
  }

  /** What a sweep does to the memory and the pending map. */
  lemma SweptLife(l: Life, now: u64)
    requires OnePerAgent(l.pending)
    ensures var gone := set id | id in Listing(Overdue(l, now), AgentOf); var l' := ExpireIn(l, now).0;
      && gone <= l.pending.Keys && l'.pending == l.pending - gone && l'.completed == l.completed
      && forall id :: id in l'.expired ==> id in l.expired || id in gone
  {
    OverdueListed(l, now);
    RetireRemoves(l, Listing(Overdue(l, now), AgentOf));
  }

  /** Taking the overdue requests out of `pending` only moves them into `rest`. */
  lemma RetireKeeps(rt: Runtime, now: u64)
    requires Inv(rt) && OnePerAgent(rt.life.pending)
    ensures Consistent(rt.(life := ExpireIn(rt.life, now).0), Lapsed(rt.life, now))
  {
    hide Spent, Lapsed, Ledger, Live, OnePerAgent, Listing, Overdue, ExpireIn;
    SweptLife(rt.life, now);
    assert Live(rt.life) + Among([]) == Live(rt.life);
    assert forall id :: id in rt.life.pending ==> rt.life.pending[id].request.id == id;
    hide Tracked;
    RetireTracks(rt, (set id | id in Listing(Overdue(rt.life, now), AgentOf)), ExpireIn(rt.life, now).0);
    RestMembers(rt.life, now, ExpireIn(rt.life, now).0);
    forall i, j | 0 <= i < j < |Lapsed(rt.life, now)| ensures Lapsed(rt.life, now)[i] != Lapsed(rt.life, now)[j] {
      LapsedDiffer(rt.life, now, i, j);
    }
  }

  lemma RestMembers(l: Life, now: u64, l': Life)
    requires OnePerAgent(l.pending) && forall id :: id in l.pending ==> l.pending[id].request.id == id
    requires l'.pending == l.pending - (set id | id in Listing(Overdue(l, now), AgentOf))
    ensures Live(l') + Among(Lapsed(l, now)) == Live(l)
    ensures forall q :: q in Lapsed(l, now) ==> q !in Live(l')
  {
    var ids := Listing(Overdue(l, now), AgentOf);
    var rest := Lapsed(l, now);
    OverdueListed(l, now);
    assert forall i :: 0 <= i < |ids| ==> ids[i] in l.pending && rest[i] == l.pending[ids[i]].request && rest[i].id == ids[i];
    forall q | q in Live(l) ensures q in Live(l') || q in rest {
      var id :| id in l.pending && l.pending[id].request == q;
      if id in ids {
        var i :| 0 <= i < |ids| && ids[i] == id;
        assert rest[i] == q;
      } else {
        assert l'.pending[id].request == q;
      }
    }
    forall q | q in rest ensures q in Live(l) && q !in Live(l') {
      var i :| 0 <= i < |rest| && rest[i] == q;
      LiveIn(l, ids[i]);
      assert ids[i] in ids;
    }
    forall q | q in Live(l') ensures q in Live(l) {
      var id :| id in l'.pending && l'.pending[id].request == q;
      LiveIn(l, id);
    }
  }

  lemma SweepKeeps(rt: Runtime, now: u64)
    requires Inv(rt) && OnePerAgent(rt.life.pending)
    ensures Inv(ExpireAll(rt, now).0)
  {
    RetireKeeps(rt, now);
    var (l, outs) := ExpireIn(rt.life, now);
    SettleAllKeeps(rt.(life := l), Lapsed(rt.life, now), outs, now);
  }
}
