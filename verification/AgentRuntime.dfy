/** Orchestrates the request lifecycle, the outbox and the decision timeline. */
module AgentRuntimes {
  import opened Base
  import opened Order
  import opened Lifecycle

  // ---- Decision timeline: a bounded window of decisions with never-reused ids ----

  datatype Status = Pending | Applied(tick: u64) | Expired(tick: u64) | GaveUp(tick: u64) | Faulted(tick: u64)
  datatype Entry = Entry(id: u64, agentId: Id, sourceTick: u64, status: Status, attempts: u32)
  datatype Timeline = Timeline(nextId: u64, cap: nat, entries: seq<Entry>)

  function Allocate(t: Timeline, source: u64, agent: Id): (Timeline, u64) {
    var kept := if |t.entries| >= t.cap && t.entries != [] then t.entries[1..] else t.entries;
    (t.(nextId := SatAdd(t.nextId, 1), entries := kept + [Entry(t.nextId, agent, source, Pending, 1)]), t.nextId)
  }

  /** Position of the entry with this id, or past the end. */
  function IndexOf(entries: seq<Entry>, id: u64): (i: nat)
    ensures i <= |entries|
    ensures i < |entries| ==> entries[i].id == id
    ensures forall k :: 0 <= k < i ==> entries[k].id != id
  {
    if entries == [] || entries[0].id == id then 0 else 1 + IndexOf(entries[1..], id)
  }

  function SetEntry(t: Timeline, i: nat, e: Entry): Timeline
    requires i < |t.entries|
  {
    t.(entries := t.entries[i := e])
  }

  // The four transitions; an unknown id or an illegal transition leaves the timeline alone.

  function RecordReply(t: Timeline, id: u64, now: u64): Timeline {
    var i := IndexOf(t.entries, id);
    if i < |t.entries| && t.entries[i].status.Pending?
    then SetEntry(t, i, t.entries[i].(status := Applied(now))) else t
  }

  function RecordExpiry(t: Timeline, id: u64, now: u64): Timeline {
    var i := IndexOf(t.entries, id);
    if i < |t.entries| && t.entries[i].status.Pending?
    then SetEntry(t, i, t.entries[i].(status := Expired(now))) else t
  }

  function ReissueEntry(t: Timeline, id: u64): Timeline {
    var i := IndexOf(t.entries, id);
    if i < |t.entries| && t.entries[i].status.Expired?
    then
      var e := t.entries[i];
      SetEntry(t, i, e.(status := Pending, attempts := if e.attempts + 1 < U32_RANGE then e.attempts + 1 else e.attempts))
    else t
  }

  function GiveUpEntry(t: Timeline, id: u64, now: u64): Timeline {
    var i := IndexOf(t.entries, id);
    if i < |t.entries| && t.entries[i].status.Expired?
    then SetEntry(t, i, t.entries[i].(status := GaveUp(now))) else t
  }

  function RecordFault(t: Timeline, id: u64, now: u64): Timeline {
    var i := IndexOf(t.entries, id);
    if i < |t.entries| && (t.entries[i].status.Pending? || t.entries[i].status.Expired?)
    then SetEntry(t, i, t.entries[i].(status := Faulted(now))) else t
  }

  /** First decision of this agent still pending or expired: all a give-up warning lets us look for. */
  function FindOpen(entries: seq<Entry>, agent: Id): (id: Option<u64>)
    ensures id.Some? ==> exists k :: 0 <= k < |entries| && entries[k].id == id.value && entries[k].agentId == agent
                                     && (entries[k].status.Pending? || entries[k].status.Expired?)
    ensures id.None? ==> forall k :: 0 <= k < |entries| && entries[k].agentId == agent ==> !entries[k].status.Pending? && !entries[k].status.Expired?
  {
    if entries == [] then None
    else if entries[0].agentId == agent && (entries[0].status.Pending? || entries[0].status.Expired?) then Some(entries[0].id)
    else
      var r := FindOpen(entries[1..], agent);
      assert r.Some? ==> exists k :: 0 <= k < |entries[1..]| && entries[1..][k] == entries[k + 1] && entries[1..][k].id == r.value && entries[1..][k].agentId == agent
                                     && (entries[1..][k].status.Pending? || entries[1..][k].status.Expired?);
      assert forall k :: 1 <= k < |entries| ==> entries[k] == entries[1..][k - 1];
      r
  }

  // ---- The runtime ----

  /** What happened over a run, for the statements about runs. */
  datatype Event =
    | Issued(id: RequestId, tick: u64, window: u32)
    | AppliedReply(id: RequestId, tick: u64)
    | GivenUp(id: RequestId, tick: u64, reported: u64)
    | RetiredLate(id: RequestId, tick: u64)

  datatype Runtime = Runtime(life: Life, outbox: seq<AgentRequest>, timeline: Timeline, history: seq<Event>)

  datatype DecisionOutcome = Accepted(id: u64) | Dropped(lag: u32)
  datatype ReplyOutcome = ApplyReply(id: u64, agentId: Id, chosen: Option<string>, rationale: string) | DropReply(why: DrainOutcome)
  datatype ExpireOutcome = Reissued(id: u64, lag: u32) | GaveUpOn(id: u64)

  ghost function EnqueueDecision(rt: Runtime, agent: Id, observation: string, window: u32, now: u64): (Runtime, DecisionOutcome) {
    if HasPending(rt.life.pending, agent) then (rt, Dropped(BackpressureLag(now, now)))
    else
      var (t, id) := Allocate(rt.timeline, now, agent);
      var request := AgentRequest(RequestId(id, agent, now, 0), window, observation);
      match EnqueueIn(rt.life, request, now)
      case (l, Enqueued) =>
        (Runtime(l, rt.outbox + [request], t, rt.history + [Issued(request.id, now, window)]), Accepted(id))
      case (l, BackpressureDropped(lag)) =>
        (rt.(life := l, timeline := RecordFault(t, id, now)), Dropped(lag))
  }

  ghost function ProcessReply(rt: Runtime, reply: AgentReply, now: u64): (Runtime, ReplyOutcome) {
    match DrainIn(rt.life, reply, now)
    case (l, Apply(agent, chosen, rationale)) =>
      (rt.(life := l, timeline := RecordReply(rt.timeline, reply.id.timelineId, now),
           history := rt.history + [AppliedReply(reply.id, now)]),
       ApplyReply(reply.id.timelineId, agent, chosen, rationale))
    case (l, why) =>
      (rt.(life := l, history := if reply.id in rt.life.pending && reply.id !in l.pending
                                 then rt.history + [RetiredLate(reply.id, now)] else rt.history),
       DropReply(why))
  }

  /** Turns one lifecycle expiry into a reissue or a give-up. */
  ghost function Settle(rt: Runtime, expiry: ExpiryOutcome, now: u64): (Runtime, ExpireOutcome) {
    match expiry
    case Reissue(next, lag) =>
      var id := next.id.timelineId;
      var t := ReissueEntry(RecordExpiry(rt.timeline, id, now), id);
      (match EnqueueIn(rt.life, next, now)
       case (l, Enqueued) =>
         Runtime(l, rt.outbox + [next], t, rt.history + [Issued(next.id, now, next.deadlineTicks)])
       case (l, BackpressureDropped(_)) =>
         rt.(life := l, timeline := RecordFault(t, id, now)),
       Reissued(id, lag))
    case GiveUp(request) =>
      match FindOpen(rt.timeline.entries, request.agentId)
      case Some(id) =>
        (rt.(timeline := GiveUpEntry(RecordExpiry(rt.timeline, id, now), id, now),
             history := rt.history + [GivenUp(request, now, id)]), GaveUpOn(id))
      case None =>
        (rt.(history := rt.history + [GivenUp(request, now, 0)]), GaveUpOn(0))
  }

  ghost function SettleAll(rt: Runtime, expiries: seq<ExpiryOutcome>, now: u64): (Runtime, seq<ExpireOutcome>)
    decreases expiries
  {
    if expiries == [] then (rt, [])
    else
      var (r1, o1) := Settle(rt, expiries[0], now);
      var (r2, o2) := SettleAll(r1, expiries[1..], now);
      (r2, [o1] + o2)
  }

  ghost function ExpireAll(rt: Runtime, now: u64): (Runtime, seq<ExpireOutcome>)
    requires OnePerAgent(rt.life.pending)
  {
    var (l, expiries) := ExpireIn(rt.life, now);
    SettleAll(rt.(life := l), expiries, now)
  }

  class AgentRuntime {
    const lifecycle: RequestLifecycle
    var outbox: seq<AgentRequest>
    var timeline: Timeline
    ghost var history: seq<Event>

    ghost function View(): Runtime reads this, lifecycle {
      Runtime(lifecycle.View(), outbox, timeline, history)
    }

    ghost predicate Valid() reads this, lifecycle {
      lifecycle.Valid()
    }

    constructor (timelineCap: nat, completedCap: nat, expiredCap: nat)
      ensures Valid() && fresh(lifecycle)
      ensures View() == Start(timelineCap, completedCap, expiredCap)
    {
      lifecycle := new RequestLifecycle(completedCap, expiredCap);
      outbox := [];
      timeline := Timeline(1, Max(timelineCap, 1), []);
      history := [];
    }

    method Enqueue(agent: Id, observation: string, window: u32, now: u64) returns (out: DecisionOutcome)
      requires Valid()
      modifies this, lifecycle
      ensures Valid()
      ensures (View(), out) == EnqueueDecision(old(View()), agent, observation, window, now)
    {
      var busy := lifecycle.HasPendingForAgent(agent);
      if busy {
        return Dropped(BackpressureLag(now, now));
      }
      var (t, id) := Allocate(timeline, now, agent);
      timeline := t;
      var request := AgentRequest(RequestId(id, agent, now, 0), window, observation);
      var accepted := lifecycle.TryEnqueue(request, now);
      match accepted {
        case Enqueued =>
          outbox := outbox + [request];
          history := history + [Issued(request.id, now, window)];
          out := Accepted(id);
        case BackpressureDropped(lag) =>
          // Would record a fault on the new row; the check above rules it out.
          assert false;
          out := Dropped(lag);
      }
    }

    method DrainOutbox() returns (requests: seq<AgentRequest>)
      modifies this`outbox
      ensures requests == old(outbox) && View() == old(View()).(outbox := [])
    {
      requests, outbox := outbox, [];
    }

    method Reply(reply: AgentReply, now: u64) returns (out: ReplyOutcome)
      requires Valid()
      modifies this, lifecycle
      ensures Valid()
      ensures (View(), out) == ProcessReply(old(View()), reply, now)
    {
      ghost var before := lifecycle.pending;
      var drained := lifecycle.DrainReply(reply, now);
      match drained {
        case Apply(agent, chosen, rationale) =>
          timeline := RecordReply(timeline, reply.id.timelineId, now);
          history := history + [AppliedReply(reply.id, now)];
          out := ApplyReply(reply.id.timelineId, agent, chosen, rationale);
        case _ =>
          if reply.id in before && reply.id !in lifecycle.pending {
            history := history + [RetiredLate(reply.id, now)];
          }
          out := DropReply(drained);
      }
    }

    method Expire(now: u64) returns (out: seq<ExpireOutcome>)
      requires Valid()
      modifies this, lifecycle
      ensures Valid()
      ensures (View(), out) == ExpireAll(old(View()), now)
    {
      hide Settle;
      var expiries := lifecycle.ExpireOverdue(now);
      ghost var goal := SettleAll(View(), expiries, now);
      assert goal == ExpireAll(old(View()), now);
      out := [];
      assert expiries[0..] == expiries;
      for i := 0 to |expiries|
        invariant Valid()
        invariant out + SettleAll(View(), expiries[i..], now).1 == goal.1
        invariant SettleAll(View(), expiries[i..], now).0 == goal.0
      {
        ghost var rest := SettleAll(View(), expiries[i..], now);
        assert expiries[i..][0] == expiries[i] && expiries[i..][1..] == expiries[i + 1..];
        ghost var before := View();
        var one := SettleOne(expiries[i], now);
        assert rest == (SettleAll(View(), expiries[i + 1..], now).0, [one] + SettleAll(View(), expiries[i + 1..], now).1);
        out := out + [one];
      }
      assert expiries[|expiries|..] == [] && out + [] == out;
    }

    method SettleOne(expiry: ExpiryOutcome, now: u64) returns (out: ExpireOutcome)
      requires Valid()
      modifies this, lifecycle
      ensures Valid()
      ensures (View(), out) == Settle(old(View()), expiry, now)
    {
      match expiry {
        case Reissue(next, lag) =>
          var id := next.id.timelineId;
          timeline := ReissueEntry(RecordExpiry(timeline, id, now), id);
          var accepted := lifecycle.TryEnqueue(next, now);
          match accepted {
            case Enqueued =>
              outbox := outbox + [next];
              history := history + [Issued(next.id, now, next.deadlineTicks)];
            case BackpressureDropped(_) =>
              timeline := RecordFault(timeline, id, now);
          }
          out := Reissued(id, lag);
        case GiveUp(request) =>
          var found := FindOpen(timeline.entries, request.agentId);
          match found {
            case Some(id) =>
              timeline := GiveUpEntry(RecordExpiry(timeline, id, now), id, now);
              history := history + [GivenUp(request, now, id)];
              out := GaveUpOn(id);
            case None =>
              history := history + [GivenUp(request, now, 0)];
              out := GaveUpOn(0);
          }
      }
    }
  }

  /** A fresh runtime; the window of the timeline holds at least one decision. */
  function Start(timelineCap: nat, completedCap: nat, expiredCap: nat): Runtime {
    Runtime(Life(map[], [], [], completedCap, expiredCap), [], Timeline(1, Max(timelineCap, 1), []), [])
  }
}
