/** Outbox/inbox boundary: pending requests, their deadlines, and two bounded memories of past ids. */
module Lifecycle {
  import opened Base
  import opened Order

  const MAX_ATTEMPTS: u32 := 2

  datatype RequestId = RequestId(timelineId: u64, agentId: Id, sourceTick: u64, attempt: u32)
  datatype AgentRequest = AgentRequest(id: RequestId, deadlineTicks: u32, observation: string)
  datatype AgentReply = AgentReply(id: RequestId, chosen: Option<string>, rationale: string)
  datatype PendingEntry = PendingEntry(deadlineAbs: u64, request: AgentRequest)

  datatype EnqueueOutcome = Enqueued | BackpressureDropped(lag: u32)
  datatype DrainOutcome =
    | Apply(agentId: Id, chosen: Option<string>, rationale: string)
    | Duplicate
    | Stale(lag: u32)
    | UnknownId
  datatype ExpiryOutcome =
    | Reissue(next: AgentRequest, lag: u32)
    | GiveUp(id: RequestId)

  /** The lifecycle's whole state, as a value. */
  datatype Life = Life(
    pending: map<RequestId, PendingEntry>,
    completed: seq<RequestId>, expired: seq<RequestId>,
    completedCap: nat, expiredCap: nat)

  function NextAttempt(id: RequestId): RequestId {
    id.(attempt := if id.attempt + 1 < U32_RANGE then id.attempt + 1 else id.attempt)
  }

  /** `(now - source) as u32`, then at least one frame. */
  function LagFrames(now: u64, source: u64): u32 {
    Max(SatSub(now, source) % U32_RANGE, 1)
  }

  /** Here the floor of one frame is taken before the truncating cast. */
  function BackpressureLag(now: u64, source: u64): u32 {
    Max(SatSub(now, source), 1) % U32_RANGE
  }

  function PushRing<T>(ring: seq<T>, x: T, cap: nat): (r: seq<T>) {
    (if |ring| >= cap && ring != [] then ring[1..] else ring) + [x]
  }

  function AgentOf(id: RequestId): string { id.agentId }

  ghost predicate HasPending(pending: map<RequestId, PendingEntry>, agent: Id) {
    exists id :: id in pending && id.agentId == agent
  }

  ghost predicate OnePerAgent(pending: map<RequestId, PendingEntry>) {
    InjectiveOn(pending.Keys, AgentOf)
  }

  ghost function EnqueueIn(l: Life, request: AgentRequest, now: u64): (Life, EnqueueOutcome) {
    if HasPending(l.pending, request.id.agentId) then
      (l, BackpressureDropped(BackpressureLag(now, request.id.sourceTick)))
    else
      var entry := PendingEntry(SatAdd(now, request.deadlineTicks), request);
      (l.(pending := l.pending[request.id := entry]), Enqueued)
  }

  ghost function DrainIn(l: Life, reply: AgentReply, now: u64): (Life, DrainOutcome) {
    if reply.id in l.completed then (l, Duplicate)
    else if reply.id in l.expired then (l, Stale(LagFrames(now, reply.id.sourceTick)))
    else if reply.id in l.pending then
      var rest := l.(pending := l.pending - {reply.id});
      if now <= l.pending[reply.id].deadlineAbs then
        (rest.(completed := PushRing(l.completed, reply.id, l.completedCap)),
         Apply(reply.id.agentId, reply.chosen, reply.rationale))
      else
        (rest.(expired := PushRing(l.expired, reply.id, l.expiredCap)),
         Stale(LagFrames(now, reply.id.sourceTick)))
    else (l, UnknownId)
  }

  ghost function Overdue(l: Life, now: u64): set<RequestId> {
    set id | id in l.pending && l.pending[id].deadlineAbs < now
  }

  ghost function ExpiryOf(request: AgentRequest, now: u64): ExpiryOutcome {
    if request.id.attempt < MAX_ATTEMPTS then
      Reissue(request.(id := NextAttempt(request.id)), LagFrames(now, request.id.sourceTick))
    else GiveUp(request.id)
  }

  /** Takes the listed ids out of `pending`, oldest listed first. */
  ghost function Retire(l: Life, ids: seq<RequestId>): Life
    decreases ids
  {
    if ids == [] then l
    else if ids[0] !in l.pending then Retire(l, ids[1..])
    else
      Retire(l.(pending := l.pending - {ids[0]}, expired := PushRing(l.expired, ids[0], l.expiredCap)), ids[1..])
  }

  ghost function Lapsed(l: Life, now: u64): seq<AgentRequest>
    requires OnePerAgent(l.pending)
  {
    var ids := Listing(Overdue(l, now), AgentOf);
    OverdueListed(l, now);
    seq(|ids|, i requires 0 <= i < |ids| => assert ids[i] in ids; l.pending[ids[i]].request.(id := ids[i]))
  }

  ghost function ExpireIn(l: Life, now: u64): (Life, seq<ExpiryOutcome>)
    requires OnePerAgent(l.pending)
  {
    var requests := Lapsed(l, now);
    (Retire(l, Listing(Overdue(l, now), AgentOf)),
     seq(|requests|, i requires 0 <= i < |requests| => ExpiryOf(requests[i], now)))
  }

  lemma OverdueListed(l: Life, now: u64)
    requires OnePerAgent(l.pending)
    ensures SortedBy(Listing(Overdue(l, now), AgentOf), AgentOf)
    ensures forall id :: id in Listing(Overdue(l, now), AgentOf) <==> id in Overdue(l, now)
    ensures Untouched(l.pending, l.pending, Listing(Overdue(l, now), AgentOf), 0)
  {
    ListingSorted(Overdue(l, now), AgentOf);
    var ids := Listing(Overdue(l, now), AgentOf);
    forall k | 0 <= k < |ids| ensures ids[k] in l.pending {
      assert ids[k] in ids;
    }
  }

  /** Retiring a list of distinct pending ids removes exactly those, whatever the rings do. */
  lemma {:induction false} RetireRemoves(l: Life, ids: seq<RequestId>)
    requires forall id :: id in ids ==> id in l.pending
    requires SortedBy(ids, AgentOf)
    ensures var r := Retire(l, ids);
      && r.pending == l.pending - (set id | id in ids)
      && r.completed == l.completed && r.completedCap == l.completedCap && r.expiredCap == l.expiredCap
      && forall id :: id in r.expired ==> id in l.expired || id in ids
    decreases ids
  {
    if ids != [] {
      var id := ids[0];
      var l' := l.(pending := l.pending - {id}, expired := PushRing(l.expired, id, l.expiredCap));
      forall j | j in ids[1..] ensures j in l'.pending {
        var k :| 1 <= k < |ids| && ids[k] == j;
        LessAsymmetric(AgentOf(ids[0]), AgentOf(ids[k]));
      }
      RetireRemoves(l', ids[1..]);
      assert (set j | j in ids) == {id} + (set j | j in ids[1..]);
    }
  }

  /** From position i on, the listed ids still hold the entries they had. */
  ghost predicate Untouched(p: map<RequestId, PendingEntry>, p0: map<RequestId, PendingEntry>, ids: seq<RequestId>, i: nat) {
    forall k :: i <= k < |ids| ==> ids[k] in p && ids[k] in p0 && p[ids[k]] == p0[ids[k]]
  }

  lemma RetireStep(l: Life, p0: map<RequestId, PendingEntry>, ids: seq<RequestId>, i: nat)
    requires i < |ids| && Untouched(l.pending, p0, ids, i) && SortedBy(ids, AgentOf)
    ensures Retire(l, ids[i..]) == Retire(l.(pending := l.pending - {ids[i]}, expired := PushRing(l.expired, ids[i], l.expiredCap)), ids[i + 1..])
    ensures Untouched(l.pending - {ids[i]}, p0, ids, i + 1)
  {
    assert ids[i..][0] == ids[i] && ids[i..][1..] == ids[i + 1..];
    forall k | i < k < |ids| ensures ids[k] != ids[i] {
      LessAsymmetric(AgentOf(ids[i]), AgentOf(ids[k]));
    }
  }

  lemma ExpireKeepsOnePerAgent(l: Life, now: u64)
    requires OnePerAgent(l.pending)
    ensures OnePerAgent(ExpireIn(l, now).0.pending)
  {
    OverdueListed(l, now);
    RetireRemoves(l, Listing(Overdue(l, now), AgentOf));
  }

  class RequestLifecycle {
    var pending: map<RequestId, PendingEntry>
    var completed: seq<RequestId>
    var expired: seq<RequestId>
    const completedCap: nat
    const expiredCap: nat

    ghost function View(): Life reads this {
      Life(pending, completed, expired, completedCap, expiredCap)
    }

    ghost predicate Valid() reads this {
      OnePerAgent(pending)
    }

    constructor (completedCap: nat, expiredCap: nat)
      ensures Valid()
      ensures View() == Life(map[], [], [], completedCap, expiredCap)
    {
      pending, completed, expired := map[], [], [];
      this.completedCap, this.expiredCap := completedCap, expiredCap;
    }

    method HasPendingForAgent(agent: Id) returns (found: bool)
      ensures found == HasPending(pending, agent)
    {
      found := exists id :: id in pending && id.agentId == agent;
    }

    method TryEnqueue(request: AgentRequest, now: u64) returns (out: EnqueueOutcome)
      requires Valid()
      modifies this
      ensures Valid()
      ensures (View(), out) == EnqueueIn(old(View()), request, now)
    {
      var busy := HasPendingForAgent(request.id.agentId);
      if busy {
        return BackpressureDropped(BackpressureLag(now, request.id.sourceTick));
      }
      pending := pending[request.id := PendingEntry(SatAdd(now, request.deadlineTicks), request)];
      out := Enqueued;
    }

    method DrainReply(reply: AgentReply, now: u64) returns (out: DrainOutcome)
      requires Valid()
      modifies this
      ensures Valid()
      ensures (View(), out) == DrainIn(old(View()), reply, now)
    {
      if reply.id in completed {
        return Duplicate;
      }
      if reply.id in expired {
        return Stale(LagFrames(now, reply.id.sourceTick));
      }
      if reply.id in pending {
        var entry := pending[reply.id];
        pending := pending - {reply.id};
        if now <= entry.deadlineAbs {
          completed := PushRing(completed, reply.id, completedCap);
          return Apply(reply.id.agentId, reply.chosen, reply.rationale);
        }
        expired := PushRing(expired, reply.id, expiredCap);
        return Stale(LagFrames(now, reply.id.sourceTick));
      }
      out := UnknownId;
    }

    method ExpireOverdue(now: u64) returns (outcomes: seq<ExpiryOutcome>)
      requires Valid()
      modifies this
      ensures Valid()
      ensures (View(), outcomes) == ExpireIn(old(View()), now)
    {
      ghost var l := View();
      ExpireKeepsOnePerAgent(l, now);
      OverdueListed(l, now);
      var overdue := Collect((set id | id in pending && pending[id].deadlineAbs < now), AgentOf);
      assert overdue == Listing(Overdue(l, now), AgentOf);
      outcomes := RetireListed(overdue, now);
      assert outcomes == ExpireIn(l, now).1;
    }

    /** The loop over the sorted overdue ids. */
    method RetireListed(overdue: seq<RequestId>, now: u64) returns (outcomes: seq<ExpiryOutcome>)
      requires SortedBy(overdue, AgentOf) && Untouched(pending, pending, overdue, 0)
      modifies this
      ensures View() == Retire(old(View()), overdue)
      ensures |outcomes| == |overdue|
      ensures forall k :: 0 <= k < |overdue| ==> overdue[k] in old(pending) && outcomes[k] == ExpiryOf(old(pending)[overdue[k]].request.(id := overdue[k]), now)
    {
      ghost var l0 := View();
      outcomes := [];
      for i := 0 to |overdue|
        invariant Retire(View(), overdue[i..]) == Retire(l0, overdue)
        invariant Untouched(pending, l0.pending, overdue, i)
        invariant |outcomes| == i
        invariant forall k :: 0 <= k < i ==> outcomes[k] == ExpiryOf(l0.pending[overdue[k]].request.(id := overdue[k]), now)
      {
        ghost var l := View();
        var id := overdue[i];
        RetireStep(l, l0.pending, overdue, i);
        if id in pending {
          var entry := pending[id];
          pending := pending - {id};
          expired := PushRing(expired, id, expiredCap);
          assert View() == l.(pending := l.pending - {id}, expired := PushRing(l.expired, id, l.expiredCap));
          var outcome := if id.attempt < MAX_ATTEMPTS
            then Reissue(entry.request.(id := NextAttempt(id)), LagFrames(now, id.sourceTick))
            else GiveUp(id);
          outcomes := outcomes + [outcome];
        }
      }
      assert overdue[|overdue|..] == [];
    }
  }
}
