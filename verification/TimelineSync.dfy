/** When the decision timeline and the request lifecycle tell the same story, and what breaks it. */
module TimelineSync {
  import opened Base
  import opened Order
  import opened Lifecycle
  import opened AgentRuntimes
  import opened Protocol
  import opened ProtocolRuns

  /** The window keeps the latest decisions, with consecutive ids. */
  ghost predicate Windowed(t: Timeline) {
    && t.cap >= 1 && 1 <= t.nextId
    && |t.entries| == Min(t.cap, t.nextId - 1)
    && forall i :: 0 <= i < |t.entries| ==> t.entries[i].id == t.nextId - |t.entries| + i
  }

  predicate Retained(t: Timeline, id: u64) {
    IndexOf(t.entries, id) < |t.entries|
  }

  ghost predicate Awaits(live: set<AgentRequest>, e: Entry) {
    exists q :: q in live && q.id.timelineId == e.id && q.id.agentId == e.agentId && e.attempts == q.id.attempt + 1
  }

  /** What one row claims is what happened. */
  ghost predicate RowTrue(h: seq<Event>, live: set<AgentRequest>, e: Entry) {
    match e.status
    case Pending => Awaits(live, e)
    case Applied(t) => exists id: RequestId :: AppliedReply(id, t) in h && id.timelineId == e.id
    case GaveUp(t) => exists id: RequestId, r: u64 :: GivenUp(id, t, r) in h && id.timelineId == e.id
    case _ => false
  }

  ghost predicate RowsTrue(h: seq<Event>, live: set<AgentRequest>, t: Timeline) {
    forall i :: 0 <= i < |t.entries| ==> RowTrue(h, live, t.entries[i])
  }

  /** Each give-up was reported under its own id, or under 0 once the window had moved past it. */
  ghost predicate GiveUpsNamed(h: seq<Event>, t: Timeline) {
    forall e :: e in h && e.GivenUp? ==> e.reported == e.id.timelineId || (e.reported == 0 && e.id.timelineId + t.cap < t.nextId)
  }

  ghost predicate InSync(rt: Runtime, live: set<AgentRequest>) {
    Windowed(rt.timeline) && RowsTrue(rt.history, live, rt.timeline) && GiveUpsNamed(rt.history, rt.timeline)
  }

  /** A row left pending by a reply that came late: nothing will ever be heard of it again. */
  ghost predicate Stranded(h: seq<Event>, e: Entry) {
    e.status.Pending? && exists id: RequestId, t: u64 :: RetiredLate(id, t) in h && id.timelineId == e.id
  }

  ghost predicate RowFair(h: seq<Event>, live: set<AgentRequest>, e: Entry) {
    RowTrue(h, live, e) || Stranded(h, e)
  }

  ghost predicate RowsFair(h: seq<Event>, live: set<AgentRequest>, t: Timeline) {
    forall i :: 0 <= i < |t.entries| ==> RowFair(h, live, t.entries[i])
  }

  /** True but for rows left pending by late replies. */
  ghost predicate Fair(h: seq<Event>, live: set<AgentRequest>, t: Timeline) {
    Windowed(t) && RowsFair(h, live, t) && GiveUpsNamed(h, t)
  }

  /** Every decision that a reply retired late has left the window. */
  ghost predicate LateGone(h: seq<Event>, t: Timeline) {
    forall e :: e in h && e.RetiredLate? ==> !Retained(t, e.id.timelineId)
  }

  ghost predicate FairRun(rt: Runtime, live: set<AgentRequest>) { Fair(rt.history, live, rt.timeline) }

  lemma InWindow(t: Timeline, i: nat)
    requires i < |t.entries|
    ensures Retained(t, t.entries[i].id)
  {
    assert IndexOf(t.entries, t.entries[i].id) <= i;
  }

  lemma NoneStranded(h: seq<Event>, live: set<AgentRequest>, t: Timeline)
    requires RowsFair(h, live, t) && LateGone(h, t)
    ensures RowsTrue(h, live, t)
  {
    forall i | 0 <= i < |t.entries| ensures RowTrue(h, live, t.entries[i]) {
      InWindow(t, i);
      assert RowFair(h, live, t.entries[i]);
    }
  }

  /** A row that is true, or stranded, stays so, unless what it waits for is taken away. */
  lemma RowKept(h: seq<Event>, live: set<AgentRequest>, e: Entry, x: Event, live': set<AgentRequest>)
    requires RowFair(h, live, e)
    requires e.status.Pending? ==> forall q :: q in live && q.id.timelineId == e.id ==> q in live'
    ensures RowFair(h + [x], live', e)
  {
    if Stranded(h, e) {
      var id: RequestId, t: u64 :| RetiredLate(id, t) in h && id.timelineId == e.id;
      assert RetiredLate(id, t) in h + [x];
    } else {
      match e.status {
        case Applied(t) =>
          var id: RequestId :| AppliedReply(id, t) in h && id.timelineId == e.id;
          assert AppliedReply(id, t) in h + [x];
        case GaveUp(t) =>
          var id: RequestId, r: u64 :| GivenUp(id, t, r) in h && id.timelineId == e.id;
          assert GivenUp(id, t, r) in h + [x];
        case _ =>
      }
    }
  }

  lemma {:induction false} EndedBy(h: seq<Event>, x: Event)
    requires x in h && IsEnd(x)
    ensures Ends(h, x.id.timelineId) >= 1
  {
    var i :| 0 <= i < |h| && h[i] == x;
    EndsOnce(h, i);
  }

  /** The row of an awaited decision says so. */
  lemma AwaitedRow(h: seq<Event>, nextId: nat, live: set<AgentRequest>, e: Entry, q: AgentRequest)
    requires LiveLedger(h, nextId, live) && RowFair(h, live, e)
    requires q in live && q.id.timelineId == e.id
    ensures e.status.Pending? && e.agentId == q.id.agentId && e.attempts == q.id.attempt + 1
  {
    if Stranded(h, e) {
      var id: RequestId, t: u64 :| RetiredLate(id, t) in h && id.timelineId == e.id;
      EndedBy(h, RetiredLate(id, t));
    }
    match e.status {
      case Applied(t) =>
        var id: RequestId :| AppliedReply(id, t) in h && id.timelineId == e.id;
        EndedBy(h, AppliedReply(id, t));
      case GaveUp(t) =>
        var id: RequestId, r: u64 :| GivenUp(id, t, r) in h && id.timelineId == e.id;
        EndedBy(h, GivenUp(id, t, r));
      case _ =>
    }
  }

  lemma AllocateWindowed(t: Timeline, source: u64, agent: Id)
    requires Windowed(t) && t.nextId < U64_MAX
    ensures Windowed(Allocate(t, source, agent).0)
    ensures var t' := Allocate(t, source, agent).0;
      forall i :: 0 <= i < |t'.entries| - 1 ==> t'.entries[i] in t.entries
  {
    var t' := Allocate(t, source, agent).0;
    forall i | 0 <= i < |t'.entries| - 1 ensures t'.entries[i] in t.entries {
      if |t.entries| >= t.cap && t.entries != [] {
        assert t'.entries[i] == t.entries[i + 1];
      } else {
        assert t'.entries[i] == t.entries[i];
      }
    }
  }

  lemma AskFair(rt: Runtime, agent: Id, observation: string, window: u32, now: u64)
    requires Inv(rt) && rt.timeline.nextId < U64_MAX && FairRun(rt, Live(rt.life))
    ensures var rt' := EnqueueDecision(rt, agent, observation, window, now).0; FairRun(rt', Live(rt'.life))
  {
    if !HasPending(rt.life.pending, agent) {
      var rt' := EnqueueDecision(rt, agent, observation, window, now).0;
      var q := AgentRequest(RequestId(rt.timeline.nextId, agent, now, 0), window, observation);
      InvLedger(rt);
      AllocateWindowed(rt.timeline, now, agent);
      forall e | e in rt.history && e.Issued? ensures e.id != q.id {
        assert e.id.timelineId < rt.timeline.nextId;
      }
      TrackIssue(rt, q, now, rt');
      AskRows(rt, q, now, rt');
    }
  }

  lemma AskRows(rt: Runtime, q: AgentRequest, now: u64, rt': Runtime)
    requires RowsFair(rt.history, Live(rt.life), rt.timeline)
    requires rt'.timeline == Allocate(rt.timeline, now, q.id.agentId).0 && q.id.timelineId == rt.timeline.nextId && q.id.attempt == 0
    requires rt'.history == rt.history + [Issued(q.id, now, q.deadlineTicks)]
    requires Live(rt'.life) == Live(rt.life) + {q}
    requires forall i :: 0 <= i < |rt'.timeline.entries| - 1 ==> rt'.timeline.entries[i] in rt.timeline.entries
    ensures RowsFair(rt'.history, Live(rt'.life), rt'.timeline)
  {
    forall i | 0 <= i < |rt'.timeline.entries| ensures RowFair(rt'.history, Live(rt'.life), rt'.timeline.entries[i]) {
      if i < |rt'.timeline.entries| - 1 {
        var k :| 0 <= k < |rt.timeline.entries| && rt.timeline.entries[k] == rt'.timeline.entries[i];
        RowKept(rt.history, Live(rt.life), rt.timeline.entries[k], Issued(q.id, now, q.deadlineTicks), Live(rt'.life));
      } else {
        assert q in Live(rt'.life);
      }
    }
  }

  /** All rows but that of decision `id` survive an event about that decision. */
  lemma OtherRows(h: seq<Event>, live: set<AgentRequest>, t: Timeline, x: Event, live': set<AgentRequest>, id: u64, t': Timeline)
    requires RowsFair(h, live, t)
    requires forall q :: q in live && q.id.timelineId != id ==> q in live'
    requires |t'.entries| == |t.entries|
    requires forall i :: 0 <= i < |t.entries| ==>
      if t.entries[i].id == id then RowFair(h + [x], live', t'.entries[i]) else t'.entries[i] == t.entries[i]
    ensures RowsFair(h + [x], live', t')
  {
    forall i | 0 <= i < |t.entries| ensures RowFair(h + [x], live', t'.entries[i]) {
      if t.entries[i].id != id {
        RowKept(h, live, t.entries[i], x, live');
      }
    }
  }

  /** With ids in sequence, only one position can hold an id. */
  lemma AtIndex(t: Timeline, i: nat)
    requires Windowed(t) && i < |t.entries|
    ensures IndexOf(t.entries, t.entries[i].id) == i
  {
    var k := IndexOf(t.entries, t.entries[i].id);
    assert k <= i;
    assert t.entries[k].id == t.nextId - |t.entries| + k;
  }

  /** The window holds exactly the latest `cap` decisions. */
  lemma RetainedExactly(t: Timeline, id: u64)
    requires Windowed(t) && 1 <= id < t.nextId
    ensures Retained(t, id) <==> id + t.cap >= t.nextId
  {
    var i := IndexOf(t.entries, id);
    if id + t.cap >= t.nextId {
      assert t.entries[id - (t.nextId - |t.entries|)].id == id;
    }
  }

  lemma TwoEnds(h: seq<Event>, x: Event, y: Event)
    requires x in h && y in h && x != y && IsEnd(x) && IsEnd(y) && x.id.timelineId == y.id.timelineId
    ensures Ends(h, x.id.timelineId) >= 2
  {
    var i :| 0 <= i < |h| && h[i] == x;
    var j :| 0 <= j < |h| && h[j] == y;
    if i < j { EndsTwice(h, i, j); } else { EndsTwice(h, j, i); }
  }

  /** The row of a decision retired late says nothing true. */
  lemma LateRowFalse(h: seq<Event>, nextId: nat, live: set<AgentRequest>, x: Event, e: Entry)
    requires Ledger(h, nextId, live) && x in h && x.RetiredLate? && e.id == x.id.timelineId
    ensures !RowTrue(h, live, e)
  {
    EndedBy(h, x);
    if RowTrue(h, live, e) {
      match e.status {
        case Applied(t) =>
          var id: RequestId :| AppliedReply(id, t) in h && id.timelineId == e.id;
          TwoEnds(h, x, AppliedReply(id, t));
        case GaveUp(t) =>
          var id: RequestId, r: u64 :| GivenUp(id, t, r) in h && id.timelineId == e.id;
          TwoEnds(h, x, GivenUp(id, t, r));
        case _ =>
      }
    }
  }

  /** A fair timeline is true exactly when all that was retired late has left it. */
  lemma FairExactly(h: seq<Event>, nextId: nat, live: set<AgentRequest>, t: Timeline)
    requires Ledger(h, nextId, live) && RowsFair(h, live, t)
    ensures RowsTrue(h, live, t) <==> LateGone(h, t)
  {
    if LateGone(h, t) {
      NoneStranded(h, live, t);
    } else {
      var x :| x in h && x.RetiredLate? && Retained(t, x.id.timelineId);
      LateRowFalse(h, nextId, live, x, t.entries[IndexOf(t.entries, x.id.timelineId)]);
    }
  }

  lemma SyncExactly(rt: Runtime)
    requires Inv(rt) && FairRun(rt, Live(rt.life))
    ensures InSync(rt, Live(rt.life)) <==> LateGone(rt.history, rt.timeline)
  {
    InvLedger(rt);
    FairExactly(rt.history, rt.timeline.nextId, Live(rt.life), rt.timeline);
  }

  lemma SyncIsFair(rt: Runtime)
    requires InSync(rt, Live(rt.life))
    ensures FairRun(rt, Live(rt.life))
  {
  }

  /** Whatever a reply does, it leaves a fair timeline fair: at worst it strands a row. */
  lemma EndedFair(h: seq<Event>, t: Timeline, nextId: nat, live: set<AgentRequest>, q: AgentRequest, x: Event, t': Timeline)
    requires LiveLedger(h, nextId, live) && Fair(h, live, t)
    requires q in live && (x.AppliedReply? || x.RetiredLate?) && x.id == q.id
    requires t' == if x.AppliedReply? then RecordReply(t, q.id.timelineId, x.tick) else t
    ensures Fair(h + [x], live - {q}, t')
    ensures forall id :: Retained(t', id) <==> Retained(t, id)
  {
    var id := q.id.timelineId;
    var i := IndexOf(t.entries, id);
    if i < |t.entries| {
      AwaitedRow(h, nextId, live, t.entries[i], q);
    }
    forall k | 0 <= k < |t.entries|
      ensures if t.entries[k].id == id then RowFair(h + [x], live - {q}, t'.entries[k]) else t'.entries[k] == t.entries[k]
    {
      AtIndex(t, k);
      assert x in h + [x];
    }
    OtherRows(h, live, t, x, live - {q}, id, t');
    assert forall k :: 0 <= k < |t.entries| ==> t'.entries[k].id == t.entries[k].id;
    SameWindow(t, t');
  }

  lemma SameWindow(t: Timeline, t': Timeline)
    requires |t.entries| == |t'.entries| && forall k :: 0 <= k < |t.entries| ==> t'.entries[k].id == t.entries[k].id
    ensures forall id :: Retained(t', id) <==> Retained(t, id)
  {
    forall id ensures Retained(t', id) <==> Retained(t, id) {
      var i, j := IndexOf(t.entries, id), IndexOf(t'.entries, id);
      if i < |t.entries| { InWindow(t', i); }
      if j < |t.entries| { InWindow(t, j); }
    }
  }

  lemma AnswerFair(rt: Runtime, reply: AgentReply, now: u64)
    requires Inv(rt) && FairRun(rt, Live(rt.life))
    ensures var rt' := ProcessReply(rt, reply, now).0;
      && FairRun(rt', Live(rt'.life))
      && (LateGone(rt.history, rt.timeline) ==> (LateGone(rt'.history, rt'.timeline) <==> !StrandedBy(rt, reply, now)))
  {
    var id := reply.id;
    var rt' := ProcessReply(rt, reply, now).0;
    if id in rt.life.pending {
      var q := rt.life.pending[id].request;
      var x := rt'.history[|rt.history|];
      InvLedger(rt);
      LiveIn(rt.life, id);
      TrackEnd(rt, id, x, rt');
      assert rt'.history == rt.history + [x];
      assert x.RetiredLate? <==> now > rt.life.pending[id].deadlineAbs;
      hide Inv, Fair, Retained, RecordReply, LiveLedger, EventLedger, Tracked, Spent, Live;
      EndedFair(rt.history, rt.timeline, rt.timeline.nextId, Live(rt.life), q, x, rt'.timeline);
      LateGrows(rt.history, x, rt.timeline, rt'.timeline);
    }
  }

  lemma LateGrows(h: seq<Event>, x: Event, t: Timeline, t': Timeline)
    requires forall id :: Retained(t', id) <==> Retained(t, id)
    ensures LateGone(h, t) ==> (LateGone(h + [x], t') <==> !(x.RetiredLate? && Retained(t, x.id.timelineId)))
  {
    assert x in h + [x];
    hide Retained;
  }

  /** The reply retires, past its deadline, a decision the timeline still shows. */
  ghost predicate StrandedBy(rt: Runtime, reply: AgentReply, now: u64) {
    reply.id in rt.life.pending && now > rt.life.pending[reply.id].deadlineAbs && Retained(rt.timeline, reply.id.timelineId)
  }

  /**
   * A reply keeps timeline and lifecycle in step exactly unless it retires, past its deadline, a decision
   * the timeline still shows: then the row goes on saying pending while nothing is awaited.
   */
  lemma AnswerSyncExactly(rt: Runtime, reply: AgentReply, now: u64)
    requires Inv(rt) && InSync(rt, Live(rt.life))
    ensures var rt' := ProcessReply(rt, reply, now).0;
      InSync(rt', Live(rt'.life)) <==>
        !(reply.id in rt.life.pending && now > rt.life.pending[reply.id].deadlineAbs && Retained(rt.timeline, reply.id.timelineId))
  {
    var rt' := ProcessReply(rt, reply, now).0;
    hide ProcessReply, InSync, FairRun, Inv, LateGone, Retained;
    SyncIsFair(rt);
    SyncExactly(rt);
    AnswerFair(rt, reply, now);
    AnswerKeeps(rt, reply, now);
    SyncExactly(rt');
  }

  lemma SettleReissueFair(h: seq<Event>, t: Timeline, nextId: nat, live: set<AgentRequest>, q: AgentRequest, now: u64)
    requires LiveLedger(h, nextId, live) && Fair(h, live, t)
    requires q in live && q.id.attempt < MAX_ATTEMPTS
    ensures var q' := q.(id := NextAttempt(q.id));
      var t' := ReissueEntry(RecordExpiry(t, q.id.timelineId, now), q.id.timelineId);
      var x := Issued(q'.id, now, q.deadlineTicks);
      Fair(h + [x], live - {q} + {q'}, t') && forall id :: Retained(t', id) <==> Retained(t, id)
  {
    var id := q.id.timelineId;
    var q' := q.(id := NextAttempt(q.id));
    var x := Issued(q'.id, now, q.deadlineTicks);
    var live' := live - {q} + {q'};
    var i := IndexOf(t.entries, id);
    var t1 := RecordExpiry(t, id, now);
    var t' := ReissueEntry(t1, id);
    assert q' in live';
    if i < |t.entries| {
      AwaitedRow(h, nextId, live, t.entries[i], q);
      assert Windowed(t1);
      AtIndex(t1, i);
      assert RowTrue(h + [x], live', t'.entries[i]);
    }
    forall k | 0 <= k < |t.entries|
      ensures if t.entries[k].id == id then RowFair(h + [x], live', t'.entries[k]) else t'.entries[k] == t.entries[k]
    {
      AtIndex(t, k);
    }
    OtherRows(h, live, t, x, live', id, t');
    SameWindow(t, t');
  }

  /** The give-up warning names only the agent, yet the row it is filed under is that of the decision given up. */
  lemma GiveUpNamesItsOwn(h: seq<Event>, t: Timeline, nextId: nat, live: set<AgentRequest>, q: AgentRequest)
    requires LiveLedger(h, nextId, live) && Windowed(t) && RowsTrue(h, live, t) && q in live
    ensures FindOpen(t.entries, q.id.agentId) == if Retained(t, q.id.timelineId) then Some(q.id.timelineId) else None
  {
    var i := IndexOf(t.entries, q.id.timelineId);
    if i < |t.entries| {
      AwaitedRow(h, nextId, live, t.entries[i], q);
    }
    forall k | 0 <= k < |t.entries| && t.entries[k].agentId == q.id.agentId && (t.entries[k].status.Pending? || t.entries[k].status.Expired?)
      ensures t.entries[k].id == q.id.timelineId
    {
      assert RowTrue(h, live, t.entries[k]);
      assert Awaits(live, t.entries[k]);
      var p :| p in live && p.id.timelineId == t.entries[k].id && p.id.agentId == t.entries[k].agentId;
      assert p == q;
    }
  }

  /** A give-up filed under its own decision, or under none, leaves a fair timeline fair. */
  lemma SettleGiveUpFair(h: seq<Event>, t: Timeline, live: set<AgentRequest>, q: AgentRequest, now: u64)
    requires LiveLedger(h, t.nextId, live) && Fair(h, live, t) && q in live
    requires FindOpen(t.entries, q.id.agentId).Some? ==> FindOpen(t.entries, q.id.agentId).value == q.id.timelineId
    ensures var found := FindOpen(t.entries, q.id.agentId);
      var t' := if found.Some? then GiveUpEntry(RecordExpiry(t, found.value, now), found.value, now) else t;
      var x := GivenUp(q.id, now, if found.Some? then found.value else 0);
      Fair(h + [x], live - {q}, t') && forall id :: Retained(t', id) <==> Retained(t, id)
  {
    var id := q.id.timelineId;
    var found := FindOpen(t.entries, q.id.agentId);
    var i := IndexOf(t.entries, id);
    if i < |t.entries| {
      AwaitedRow(h, t.nextId, live, t.entries[i], q);
      assert found.Some?;
    } else {
      RetainedExactly(t, id);
    }
    OwnGiveUp(h, t, live, q, now, found);
  }

  lemma OwnGiveUp(h: seq<Event>, t: Timeline, live: set<AgentRequest>, q: AgentRequest, now: u64, found: Option<u64>)
    requires LiveLedger(h, t.nextId, live) && Fair(h, live, t) && q in live
    requires found == if Retained(t, q.id.timelineId) then Some(q.id.timelineId) else None
    requires found.None? ==> q.id.timelineId + t.cap < t.nextId
    ensures var t' := if found.Some? then GiveUpEntry(RecordExpiry(t, found.value, now), found.value, now) else t;
      var x := GivenUp(q.id, now, if found.Some? then found.value else 0);
      Fair(h + [x], live - {q}, t') && forall id :: Retained(t', id) <==> Retained(t, id)
  {
    var id := q.id.timelineId;
    var i := IndexOf(t.entries, id);
    var t' := if i < |t.entries| then GiveUpEntry(RecordExpiry(t, id, now), id, now) else t;
    var x := GivenUp(q.id, now, if i < |t.entries| then id else 0);
    assert x in h + [x];
    if i < |t.entries| {
      AwaitedRow(h, t.nextId, live, t.entries[i], q);
      var t1 := RecordExpiry(t, id, now);
      assert Windowed(t1);
      AtIndex(t1, i);
    }
    forall k | 0 <= k < |t.entries|
      ensures if t.entries[k].id == id then RowFair(h + [x], live - {q}, t'.entries[k]) else t'.entries[k] == t.entries[k]
    {
      AtIndex(t, k);
    }
    OtherRows(h, live, t, x, live - {q}, id, t');
    SameWindow(t, t');
  }

  /** No give-up was filed under another decision. */
  ghost predicate GiveUpsFiled(h: seq<Event>) {
    forall e :: e in h && e.GivenUp? ==> e.reported == e.id.timelineId || e.reported == 0
  }

  lemma ReissueFair(rt: Runtime, live: set<AgentRequest>, q: AgentRequest, now: u64, rt': Runtime)
    requires LiveLedger(rt.history, rt.timeline.nextId, live) && FairRun(rt, live) && q in live && q.id.attempt < MAX_ATTEMPTS
    requires rt'.timeline == ReissueEntry(RecordExpiry(rt.timeline, q.id.timelineId, now), q.id.timelineId)
    requires rt'.history == rt.history + [Issued(NextAttempt(q.id), now, q.deadlineTicks)]
    ensures FairRun(rt', live - {q} + {q.(id := NextAttempt(q.id))})
    ensures LateGone(rt.history, rt.timeline) ==> LateGone(rt'.history, rt'.timeline)
  {
    hide LiveLedger, Fair, LateGone, Retained, RecordExpiry, ReissueEntry;
    SettleReissueFair(rt.history, rt.timeline, rt.timeline.nextId, live, q, now);
    LateGrows(rt.history, Issued(NextAttempt(q.id), now, q.deadlineTicks), rt.timeline, rt'.timeline);
  }

  lemma GiveUpFair(rt: Runtime, live: set<AgentRequest>, q: AgentRequest, now: u64)
    requires LiveLedger(rt.history, rt.timeline.nextId, live) && FairRun(rt, live) && q in live
    requires LateGone(rt.history, rt.timeline) || GiveUpsFiled(Settle(rt, GiveUp(q.id), now).0.history)
    ensures var rt' := Settle(rt, GiveUp(q.id), now).0;
      && rt'.life == rt.life && FairRun(rt', live - {q})
      && (LateGone(rt.history, rt.timeline) ==> LateGone(rt'.history, rt'.timeline))
  {
    var rt' := Settle(rt, GiveUp(q.id), now).0;
    FiledRight(rt, live, q, now, rt');
    SettleGiveUpFair(rt.history, rt.timeline, live, q, now);
    var found := FindOpen(rt.timeline.entries, q.id.agentId);
    var x := GivenUp(q.id, now, if found.Some? then found.value else 0);
    hide LiveLedger, Fair, LateGone, Retained, RecordExpiry, GiveUpEntry, GiveUpsFiled;
    LateGrows(rt.history, x, rt.timeline, rt'.timeline);
  }

  lemma SettleFair(rt: Runtime, rest: seq<AgentRequest>, now: u64)
    requires Consistent(rt, rest) && rest != [] && FairRun(rt, Live(rt.life) + Among(rest))
    requires LateGone(rt.history, rt.timeline) || GiveUpsFiled(Settle(rt, ExpiryOf(rest[0], now), now).0.history)
    ensures var rt' := Settle(rt, ExpiryOf(rest[0], now), now).0;
      && FairRun(rt', Live(rt'.life) + Among(rest[1..]))
      && (LateGone(rt.history, rt.timeline) ==> LateGone(rt'.history, rt'.timeline))
  {
    var q := rest[0];
    var live := Live(rt.life) + Among(rest);
    var rt' := Settle(rt, ExpiryOf(q, now), now).0;
    AmongRest(Live(rt.life), rest);
    assert q in live;
    ReissueUnopposed(rt, rest);
    hide FairRun, LateGone, GiveUpsFiled, RecordExpiry, ReissueEntry, GiveUpEntry, FindOpen;
    if q.id.attempt < MAX_ATTEMPTS {
      var q' := q.(id := NextAttempt(q.id));
      ReissueFair(rt, live, q, now, rt');
      LiveReplace(rt.history, rt.timeline.nextId, live, q);
      TrackIssue(rt, q', now, rt');
      assert Live(rt'.life) + Among(rest[1..]) == live - {q} + {q'};
    } else {
      GiveUpFair(rt, live, q, now);
      assert Live(rt.life) + Among(rest[1..]) == live - {q};
    }
  }

  lemma FiledRight(rt: Runtime, live: set<AgentRequest>, q: AgentRequest, now: u64, rt': Runtime)
    requires LiveLedger(rt.history, rt.timeline.nextId, live) && FairRun(rt, live) && q in live
    requires rt' == Settle(rt, GiveUp(q.id), now).0
    requires LateGone(rt.history, rt.timeline) || GiveUpsFiled(rt'.history)
    ensures var found := FindOpen(rt.timeline.entries, q.id.agentId); found.Some? ==> found.value == q.id.timelineId
  {
    if LateGone(rt.history, rt.timeline) {
      NoneStranded(rt.history, live, rt.timeline);
      GiveUpNamesItsOwn(rt.history, rt.timeline, rt.timeline.nextId, live, q);
    } else {
      var found := FindOpen(rt.timeline.entries, q.id.agentId);
      if found.Some? {
        assert GivenUp(q.id, now, found.value) in rt'.history;
        assert 0 < found.value;
      }
    }
  }

  lemma FiledBefore(h: seq<Event>, h': seq<Event>)
    requires h <= h' && GiveUpsFiled(h')
    ensures GiveUpsFiled(h)
  {
    forall e | e in h && e.GivenUp? ensures e.reported == e.id.timelineId || e.reported == 0 {
      assert e in h';
    }
  }

  lemma {:induction false} SettleAllFair(rt: Runtime, rest: seq<AgentRequest>, outs: seq<ExpiryOutcome>, now: u64)
    requires Consistent(rt, rest) && FairRun(rt, Live(rt.life) + Among(rest))
    requires |outs| == |rest| && forall i :: 0 <= i < |rest| ==> outs[i] == ExpiryOf(rest[i], now)
    requires LateGone(rt.history, rt.timeline) || GiveUpsFiled(SettleAll(rt, outs, now).0.history)
    ensures var rt' := SettleAll(rt, outs, now).0;
      FairRun(rt', Live(rt'.life)) && (LateGone(rt.history, rt.timeline) ==> LateGone(rt'.history, rt'.timeline))
    decreases rest
  {
    hide FairRun, LateGone, Consistent, Settle, Live, GiveUpsFiled;
    if rest == [] {
      assert Live(rt.life) + Among(rest) == Live(rt.life);
    } else {
      var next := Settle(rt, outs[0], now).0;
      SettleAllGrows(next, outs[1..], now);
      if !LateGone(rt.history, rt.timeline) { FiledBefore(next.history, SettleAll(rt, outs, now).0.history); }
      SettleKeeps(rt, rest, now);
      SettleFair(rt, rest, now);
      SettleAllFair(next, rest[1..], outs[1..], now);
    }
  }

  lemma SweepFair(rt: Runtime, now: u64)
    requires Inv(rt) && OnePerAgent(rt.life.pending) && FairRun(rt, Live(rt.life))
    requires LateGone(rt.history, rt.timeline) || GiveUpsFiled(ExpireAll(rt, now).0.history)
    ensures var rt' := ExpireAll(rt, now).0;
      FairRun(rt', Live(rt'.life)) && (LateGone(rt.history, rt.timeline) ==> LateGone(rt'.history, rt'.timeline))
  {
    var (l, outs) := ExpireIn(rt.life, now);
    RetireKeeps(rt, now);
    OverdueListed(rt.life, now);
    RetireRemoves(rt.life, Listing(Overdue(rt.life, now), AgentOf));
    RestMembers(rt.life, now, l);
    SettleAllFair(rt.(life := l), Lapsed(rt.life, now), outs, now);
  }

  lemma SweepSync(rt: Runtime, now: u64)
    requires Inv(rt) && OnePerAgent(rt.life.pending) && InSync(rt, Live(rt.life))
    ensures var rt' := ExpireAll(rt, now).0; InSync(rt', Live(rt'.life))
  {
    hide InSync, FairRun, Inv, LateGone, ExpireAll, GiveUpsFiled;
    SyncIsFair(rt);
    SyncExactly(rt);
    SweepFair(rt, now);
    SweepKeeps(rt, now);
    SyncExactly(ExpireAll(rt, now).0);
  }

  ghost predicate NoneLate(h: seq<Event>) {
    forall e :: e in h ==> !e.RetiredLate?
  }

  /** As long as no give-up is filed under another decision, every step leaves the timeline fair. */
  lemma ThenFair(rt: Runtime, s: Timed)
    requires Inv(rt) && rt.timeline.nextId < U64_MAX && FairRun(rt, Live(rt.life))
    requires LateGone(rt.history, rt.timeline) || GiveUpsFiled(Then(rt, s).history)
    ensures FairRun(Then(rt, s), Live(Then(rt, s).life))
  {
    hide FairRun, LateGone, GiveUpsFiled, Inv, EnqueueDecision, ProcessReply, ExpireAll;
    InvOnePerAgent(rt);
    match s.step {
      case Ask(agent, observation, window) => AskFair(rt, agent, observation, window, s.now);
      case Forward => ForwardFair(rt);
      case Answer(reply) => AnswerFair(rt, reply, s.now);
      case Sweep => SweepFair(rt, s.now);
    }
  }

  lemma ForwardFair(rt: Runtime)
    requires FairRun(rt, Live(rt.life))
    ensures var rt' := rt.(outbox := []); FairRun(rt', Live(rt'.life))
  {
  }

  lemma HistoryOnlyGrows(rt: Runtime, s: Timed)
    requires Inv(rt) && rt.timeline.nextId < U64_MAX
    ensures rt.history <= Then(rt, s).history
  {
    InvOnePerAgent(rt);
    if s.step.Sweep? {
      SettleAllGrows(rt.(life := ExpireIn(rt.life, s.now).0), ExpireIn(rt.life, s.now).1, s.now);
    }
  }

  lemma {:induction false} SettleAllGrows(rt: Runtime, outs: seq<ExpiryOutcome>, now: u64)
    ensures rt.history <= SettleAll(rt, outs, now).0.history
    decreases outs
  {
    if outs != [] {
      SettleAllGrows(Settle(rt, outs[0], now).0, outs[1..], now);
    }
  }

  lemma {:induction false} RunFair(timelineCap: nat, completedCap: nat, expiredCap: nat, steps: seq<Timed>)
    requires |steps| < U64_MAX
    requires var h := Run(Begun(timelineCap, completedCap, expiredCap), steps).history; NoneLate(h) || GiveUpsFiled(h)
    ensures var end := Run(Begun(timelineCap, completedCap, expiredCap), steps); FairRun(end, Live(end.life))
  {
    var rt := Begun(timelineCap, completedCap, expiredCap);
    if steps != [] {
      var s := steps[|steps| - 1];
      var before := Run(rt, steps[..|steps| - 1]);
      hide FairRun, LateGone, Inv, Next;
      HistoryOnlyGrows(before, s);
      if NoneLate(Then(before, s).history) {
        forall e | e in before.history ensures !e.RetiredLate? {
          assert e in Then(before, s).history;
        }
        NoneLateGone(before);
      } else {
        FiledBefore(before.history, Then(before, s).history);
      }
      RunFair(timelineCap, completedCap, expiredCap, steps[..|steps| - 1]);
      ThenFair(before, s);
    }
  }

  lemma NoneLateGone(rt: Runtime)
    requires NoneLate(rt.history)
    ensures LateGone(rt.history, rt.timeline)
  {
  }

  /**
   * Exactly when the timeline tells the truth, over every run: every retained row is true (pending iff awaited,
   * applied or given up as it happened) and each give-up filed under its own decision, or under none once the
   * window had dropped that one, if and only if no give-up was filed under another decision and every decision a
   * reply retired late has left the window.
   */
  lemma TimelineInStepExactly(timelineCap: nat, completedCap: nat, expiredCap: nat, steps: seq<Timed>)
    requires |steps| < U64_MAX
    ensures var end := Run(Begun(timelineCap, completedCap, expiredCap), steps);
      InSync(end, Live(end.life)) <==> GiveUpsFiled(end.history) && LateGone(end.history, end.timeline)
  {
    var end := Run(Begun(timelineCap, completedCap, expiredCap), steps);
    hide Run, LateGone, Inv, FairRun;
    if GiveUpsFiled(end.history) {
      RunFair(timelineCap, completedCap, expiredCap, steps);
      SyncExactly(end);
    }
  }

  /** In particular, as long as no reply retires a decision late. */
  lemma TimelineInStep(timelineCap: nat, completedCap: nat, expiredCap: nat, steps: seq<Timed>)
    requires |steps| < U64_MAX
    requires NoneLate(Run(Begun(timelineCap, completedCap, expiredCap), steps).history)
    ensures var end := Run(Begun(timelineCap, completedCap, expiredCap), steps); InSync(end, Live(end.life))
  {
    var end := Run(Begun(timelineCap, completedCap, expiredCap), steps);
    hide Run, LateGone, Inv, FairRun, NoneLate, InSync;
    RunFair(timelineCap, completedCap, expiredCap, steps);
    NoneLateGone(end);
    SyncExactly(end);
  }

  /** Sweeping first on every tick is enough: then no reply is ever late. */
  lemma SweptFirstInStep(timelineCap: nat, completedCap: nat, expiredCap: nat, steps: seq<Timed>)
    requires |steps| < U64_MAX && SweptFirst(steps)
    ensures var end := Run(Begun(timelineCap, completedCap, expiredCap), steps); InSync(end, Live(end.life))
  {
    var rt := Begun(timelineCap, completedCap, expiredCap);
    if steps != [] {
      RunPrompt(rt, steps);
      forall e | e in Run(rt, steps).history ensures !e.RetiredLate? {
        assert EventPunctual(Run(rt, steps).history, e);
      }
    }
    TimelineInStep(timelineCap, completedCap, expiredCap, steps);
  }

  // ---- A run in which the two drift apart ----

  lemma SweepOne(rt: Runtime, q: AgentRequest, deadline: u64, now: u64, swept: Life)
    requires rt.life.pending == map[q.id := PendingEntry(deadline, q)] && deadline < now
    requires swept == rt.life.(pending := map[], expired := PushRing(rt.life.expired, q.id, rt.life.expiredCap))
    requires OnePerAgent(rt.life.pending)
    ensures ExpireAll(rt, now).0 == Settle(rt.(life := swept), ExpiryOf(q, now), now).0
  {
    var ids := Listing(Overdue(rt.life, now), AgentOf);
    OverdueListed(rt.life, now);
    assert ids == [q.id] by {
      assert q.id in Overdue(rt.life, now) && q.id in ids;
      if |ids| > 1 {
        assert ids[0] in ids && ids[1] in ids;
        SortedDistinct(ids, AgentOf, 0, 1);
      }
    }
    assert rt.life.pending - {q.id} == map[];
    assert Retire(rt.life, ids) == Retire(swept, ids[1..]);
    var outs := ExpireIn(rt.life, now).1;
    assert outs[0] == ExpiryOf(q, now) && outs[1..] == [];
    assert SettleAll(Settle(rt.(life := swept), outs[0], now).0, outs[1..], now).0 == Settle(rt.(life := swept), outs[0], now).0;
  }

  /** Attempt k of decision d, asked by one agent at tick d with a window of no ticks. */
  function Try(d: u32, k: u32): AgentRequest {
    AgentRequest(RequestId(d, "a", d, k), 0, "")
  }

  function Row(d: u32, status: Status, attempts: u32): Entry {
    Entry(d, "a", d, status, attempts)
  }

  function SoleRequest(q: AgentRequest, deadline: u64): map<RequestId, PendingEntry> {
    map[q.id := PendingEntry(deadline, q)]
  }

  /** Ask; answer a tick too late; ask again; then let every attempt lapse. */
  function DriftingRun(): seq<Timed> {
    [Timed(Ask("a", "", 0), 1), Timed(Answer(AgentReply(Try(1, 0).id, None, "")), 2), Timed(Ask("a", "", 0), 2),
     Timed(Sweep, 3), Timed(Sweep, 4), Timed(Sweep, 5)]
  }

  /** The states of that run, from a new runtime (k = 0) to the last sweep (k = 6). */
  function Drift(k: nat): Runtime
    requires k <= 6
  {
    var one := Try(1, 0);
    var asked := [Issued(one.id, 1, 0)];
    var late := asked + [RetiredLate(one.id, 2)] + [Issued(Try(2, 0).id, 2, 0)];
    var sent := [one] + [Try(2, 0)];
    var first := Row(1, Pending, 1);
    match k
    case 0 => Start(4096, 0, 0)
    case 1 => Runtime(Life(SoleRequest(one, 1), [], [], 0, 0), [one], Timeline(2, 4096, [first]), asked)
    case 2 => Runtime(Life(map[], [], [one.id], 0, 0), [one], Timeline(2, 4096, [first]), asked + [RetiredLate(one.id, 2)])
    case 3 => Runtime(Life(SoleRequest(Try(2, 0), 2), [], [one.id], 0, 0), sent,
                      Timeline(3, 4096, [first, Row(2, Pending, 1)]), late)
    case 4 => Runtime(Life(SoleRequest(Try(2, 1), 3), [], [Try(2, 0).id], 0, 0), sent + [Try(2, 1)],
                      Timeline(3, 4096, [first, Row(2, Pending, 2)]), late + [Issued(Try(2, 1).id, 3, 0)])
    case 5 => Runtime(Life(SoleRequest(Try(2, 2), 4), [], [Try(2, 1).id], 0, 0), sent + [Try(2, 1)] + [Try(2, 2)],
                      Timeline(3, 4096, [first, Row(2, Pending, 3)]), late + [Issued(Try(2, 1).id, 3, 0)] + [Issued(Try(2, 2).id, 4, 0)])
    case 6 => Runtime(Life(map[], [], [Try(2, 2).id], 0, 0), sent + [Try(2, 1)] + [Try(2, 2)],
                      Timeline(3, 4096, [Row(1, GaveUp(5), 1), Row(2, Pending, 3)]),
                      late + [Issued(Try(2, 1).id, 3, 0)] + [Issued(Try(2, 2).id, 4, 0)] + [GivenUp(Try(2, 2).id, 5, 1)])
  }

  lemma DriftBegins()
    ensures EnqueueDecision(Drift(0), "a", "", 0, 1).0 == Drift(1)
    ensures ProcessReply(Drift(1), AgentReply(Try(1, 0).id, None, ""), 2).0 == Drift(2)
    ensures EnqueueDecision(Drift(2), "a", "", 0, 2).0 == Drift(3)
  {
    assert SoleRequest(Try(1, 0), 1) - {Try(1, 0).id} == map[];
  }

  lemma DriftRow(attempts: u32, now: u64)
    requires attempts < 5
    ensures var t := Timeline(3, 4096, [Row(1, Pending, 1), Row(2, Pending, attempts)]);
      ReissueEntry(RecordExpiry(t, 2, now), 2) == t.(entries := [Row(1, Pending, 1), Row(2, Pending, attempts + 1)])
  {
    var t := Timeline(3, 4096, [Row(1, Pending, 1), Row(2, Pending, attempts)]);
    assert IndexOf(t.entries, 2) == 1;
    assert IndexOf(RecordExpiry(t, 2, now).entries, 2) == 1;
  }

  lemma SweepReissues(rt: Runtime, q: AgentRequest, deadline: u64, now: u64, ring: seq<RequestId>)
    requires OnePerAgent(rt.life.pending) && rt.life.pending == SoleRequest(q, deadline) && deadline < now && q.id.attempt < MAX_ATTEMPTS
    requires ring == PushRing(rt.life.expired, q.id, rt.life.expiredCap)
    ensures var q' := q.(id := NextAttempt(q.id));
      ExpireAll(rt, now).0 == Runtime(
        rt.life.(pending := SoleRequest(q', SatAdd(now, q.deadlineTicks)), expired := ring), rt.outbox + [q'],
        ReissueEntry(RecordExpiry(rt.timeline, q.id.timelineId, now), q.id.timelineId),
        rt.history + [Issued(q'.id, now, q.deadlineTicks)])
  {
    SweepOne(rt, q, deadline, now, rt.life.(pending := map[], expired := ring));
  }

  lemma DriftReissue(k: nat)
    requires 3 <= k <= 4 && OnePerAgent(Drift(k).life.pending)
    ensures ExpireAll(Drift(k), k).0 == Drift(k + 1)
  {
    if k == 3 {
      DriftRow(1, 3);
      SweepReissues(Drift(3), Try(2, 0), 2, 3, [Try(2, 0).id]);
    } else {
      DriftRow(2, 4);
      SweepReissues(Drift(4), Try(2, 1), 3, 4, [Try(2, 1).id]);
    }
  }

  lemma SweepGivesUp(rt: Runtime, q: AgentRequest, deadline: u64, now: u64, ring: seq<RequestId>, row: u64)
    requires OnePerAgent(rt.life.pending) && rt.life.pending == SoleRequest(q, deadline) && deadline < now && q.id.attempt >= MAX_ATTEMPTS
    requires ring == PushRing(rt.life.expired, q.id, rt.life.expiredCap) && FindOpen(rt.timeline.entries, q.id.agentId) == Some(row)
    ensures ExpireAll(rt, now).0 == rt.(
      life := rt.life.(pending := map[], expired := ring),
      timeline := GiveUpEntry(RecordExpiry(rt.timeline, row, now), row, now), history := rt.history + [GivenUp(q.id, now, row)])
  {
    SweepOne(rt, q, deadline, now, rt.life.(pending := map[], expired := ring));
  }

  lemma DriftGiveUpRow()
    ensures var t := Timeline(3, 4096, [Row(1, Pending, 1), Row(2, Pending, 3)]);
      && FindOpen(t.entries, "a") == Some(1)
      && GiveUpEntry(RecordExpiry(t, 1, 5), 1, 5) == t.(entries := [Row(1, GaveUp(5), 1), Row(2, Pending, 3)])
  {
    var t := Timeline(3, 4096, [Row(1, Pending, 1), Row(2, Pending, 3)]);
    assert IndexOf(t.entries, 1) == 0;
    assert IndexOf(RecordExpiry(t, 1, 5).entries, 1) == 0;
  }

  lemma DriftGivesUp()
    requires OnePerAgent(Drift(5).life.pending)
    ensures ExpireAll(Drift(5), 5).0 == Drift(6)
  {
    DriftGiveUpRow();
    SweepGivesUp(Drift(5), Try(2, 2), 4, 5, [Try(2, 2).id], 1);
  }

  lemma DriftOnePerAgent(k: nat)
    requires k < 6
    ensures OnePerAgent(Drift(k).life.pending)
  {
  }

  lemma DriftStep(k: nat)
    requires k < 6
    ensures OnePerAgent(Drift(k).life.pending) && Next(Drift(k), DriftingRun()[k]) == Drift(k + 1)
  {
    DriftOnePerAgent(k);
    if k < 3 { DriftBegins(); } else if k < 5 { DriftReissue(k); } else { DriftGivesUp(); }
    hide Drift, EnqueueDecision, ProcessReply, ExpireAll, OnePerAgent;
  }

  /**
   * One late reply is enough: decision 1 stays pending in the timeline, and when decision 2 of the
   * same agent is given up, the give-up is filed under decision 1 and row 2 stays pending.
   */
  lemma LateReplyMisfilesGiveUp()
    ensures forall k :: 0 <= k < 6 ==> OnePerAgent(Drift(k).life.pending) && Next(Drift(k), DriftingRun()[k]) == Drift(k + 1)
    ensures var end := Drift(6);
      && end.history[|end.history| - 1] == GivenUp(Try(2, 2).id, 5, 1)
      && end.timeline.entries == [Row(1, GaveUp(5), 1), Row(2, Pending, 3)]
  {
    forall k | 0 <= k < 6 ensures OnePerAgent(Drift(k).life.pending) && Next(Drift(k), DriftingRun()[k]) == Drift(k + 1) {
      DriftStep(k);
    }
    hide OnePerAgent, Next, DriftingRun;
  }
}
