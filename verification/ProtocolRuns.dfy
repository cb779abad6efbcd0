/** What holds over every run of the protocol, and what sweeping before answering adds. */
module ProtocolRuns {
  import opened Base
  import opened Order
  import opened Lifecycle
  import opened AgentRuntimes
  import opened Protocol

  lemma NextKeeps(rt: Runtime, s: Timed)
    requires Inv(rt) && OnePerAgent(rt.life.pending) && rt.timeline.nextId < U64_MAX
    ensures Inv(Next(rt, s))
  {
    match s.step {
      case Ask(agent, observation, window) => AskKeeps(rt, agent, observation, window, s.now);
      case Forward =>
      case Answer(reply) => AnswerKeeps(rt, reply, s.now);
      case Sweep => SweepKeeps(rt, s.now);
    }
  }

  lemma NextIds(rt: Runtime, s: Timed)
    requires OnePerAgent(rt.life.pending)
    ensures Next(rt, s).timeline.nextId <= rt.timeline.nextId + 1
  {
    if s.step.Sweep? {
      SettleAllIds(rt.(life := ExpireIn(rt.life, s.now).0), ExpireIn(rt.life, s.now).1, s.now);
    }
  }

  lemma {:induction false} SettleAllIds(rt: Runtime, outs: seq<ExpiryOutcome>, now: u64)
    ensures SettleAll(rt, outs, now).0.timeline.nextId == rt.timeline.nextId
    decreases outs
  {
    if outs != [] {
      SettleAllIds(Settle(rt, outs[0], now).0, outs[1..], now);
    }
  }

  /** One step from a state a run can be in. */
  ghost function Then(rt: Runtime, s: Timed): (next: Runtime)
    requires Inv(rt) && rt.timeline.nextId < U64_MAX
    ensures Inv(next) && next.timeline.nextId <= rt.timeline.nextId + 1
  {
    InvOnePerAgent(rt);
    NextKeeps(rt, s);
    NextIds(rt, s);
    Next(rt, s)
  }

  /** The state after a run. Ids stay fresh as long as the 64-bit counter has not run out. */
  ghost function Run(rt: Runtime, steps: seq<Timed>): (end: Runtime)
    requires Inv(rt) && rt.timeline.nextId + |steps| <= U64_MAX
    ensures Inv(end) && end.timeline.nextId <= rt.timeline.nextId + |steps|
  {
    if steps == [] then rt
    else Then(Run(rt, steps[..|steps| - 1]), steps[|steps| - 1])
  }

  ghost predicate Fresh(rt: Runtime) {
    rt.life.pending == map[] && rt.history == []
  }

  /** A new runtime is in a state a run can start from. */
  ghost function Begun(timelineCap: nat, completedCap: nat, expiredCap: nat): (rt: Runtime)
    ensures Inv(rt) && Fresh(rt) && rt.timeline.nextId == 1 && rt.timeline.entries == []
  {
    Start(timelineCap, completedCap, expiredCap)
  }

  lemma {:induction false} EndsTwice(h: seq<Event>, i: nat, j: nat)
    requires i < j < |h| && IsEnd(h[i]) && IsEnd(h[j]) && h[i].id.timelineId == h[j].id.timelineId
    ensures Ends(h, h[i].id.timelineId) >= 2
  {
    if j < |h| - 1 {
      EndsTwice(h[..|h| - 1], i, j);
    } else {
      EndsOnce(h[..|h| - 1], i);
    }
  }

  lemma {:induction false} EndsOnce(h: seq<Event>, i: nat)
    requires i < |h| && IsEnd(h[i])
    ensures Ends(h, h[i].id.timelineId) >= 1
  {
    if i < |h| - 1 {
      EndsOnce(h[..|h| - 1], i);
    }
  }

  /** No decision ends twice. */
  ghost predicate EndingsDistinct(h: seq<Event>) {
    forall i, j :: 0 <= i < j < |h| && IsEnd(h[i]) && IsEnd(h[j]) ==> h[i].id.timelineId != h[j].id.timelineId
  }

  /** Every reply applied answers an attempt that was issued, within the window of that attempt. */
  ghost predicate AppliedInWindow(h: seq<Event>) {
    forall e :: e in h && e.AppliedReply? ==>
      && WasIssued(h, e.id)
      && forall t: u64, w: u32 :: Issued(e.id, t, w) in h ==> e.tick <= SatAdd(t, w)
  }

  lemma LedgerEndings(h: seq<Event>, nextId: nat, live: set<AgentRequest>)
    requires EventLedger(h, nextId, live)
    ensures EndingsDistinct(h) && AppliedInWindow(h)
  {
    forall i, j | 0 <= i < j < |h| && IsEnd(h[i]) && IsEnd(h[j]) ensures h[i].id.timelineId != h[j].id.timelineId {
      if h[i].id.timelineId == h[j].id.timelineId {
        EndsTwice(h, i, j);
      }
    }
    forall e | e in h && e.AppliedReply?
      ensures WasIssued(h, e.id) && forall t: u64, w: u32 :: Issued(e.id, t, w) in h ==> e.tick <= SatAdd(t, w)
    {
      assert OnTime(h, e.id, e.tick);
      var t0: u64, w0: u32 :| Issued(e.id, t0, w0) in h && e.tick <= SatAdd(t0, w0);
      var i :| 0 <= i < |h| && h[i] == Issued(e.id, t0, w0);
      forall t: u64, w: u32 | Issued(e.id, t, w) in h ensures e.tick <= SatAdd(t, w) {
        var j :| 0 <= j < |h| && h[j] == Issued(e.id, t, w);
      }
    }
  }

  lemma InvLedger(rt: Runtime)
    requires Inv(rt)
    ensures LiveLedger(rt.history, rt.timeline.nextId, Live(rt.life))
    ensures EventLedger(rt.history, rt.timeline.nextId, Live(rt.life))
  {
    assert Live(rt.life) + Among([]) == Live(rt.life);
  }

  /**
   * Safety, for any environment, any clock and any ring sizes: no two replies are ever applied for one
   * decision, none is both applied and given up, and what is applied was still inside its own window.
   */
  lemma AtMostOneEnding(rt: Runtime, steps: seq<Timed>)
    requires Inv(rt) && rt.timeline.nextId + |steps| <= U64_MAX
    ensures EndingsDistinct(Run(rt, steps).history)
    ensures AppliedInWindow(Run(rt, steps).history)
  {
    var end := Run(rt, steps);
    InvLedger(end);
    LedgerEndings(end.history, end.timeline.nextId, Live(end.life));
  }

  /** No decision is lost: until it has ended, exactly one request for it is awaited. */
  lemma NoDecisionLost(rt: Runtime, steps: seq<Timed>, e: Event)
    requires Inv(rt) && rt.timeline.nextId + |steps| <= U64_MAX
    requires e in Run(rt, steps).history && e.Issued?
    ensures var end := Run(rt, steps);
      Ends(end.history, e.id.timelineId) + (if LiveDecision(Live(end.life), e.id.timelineId) then 1 else 0) == 1
  {
    InvLedger(Run(rt, steps));
  }

  /** The memories of past ids never swallow a reply that is due: it is applied iff it is awaited and in time. */
  lemma AppliedExactlyWhenDue(rt: Runtime, reply: AgentReply, now: u64)
    requires Inv(rt)
    ensures ProcessReply(rt, reply, now).1.ApplyReply? <==>
            reply.id in rt.life.pending && now <= rt.life.pending[reply.id].deadlineAbs
  {
  }

  // ---- Sweeping first on every tick ----

  /** Ticks advance one at a time, and each opens with a sweep. */
  ghost predicate SweptFirst(steps: seq<Timed>) {
    && (steps != [] ==> steps[0].step.Sweep?)
    && forall i :: 0 < i < |steps| ==>
         steps[i].now == steps[i - 1].now || (steps[i].now == steps[i - 1].now + 1 && steps[i].step.Sweep?)
  }

  /** When attempt k of a decision asked at `source` goes out. */
  function IssueTick(id: RequestId, window: u32): nat {
    id.sourceTick + if id.attempt == 0 then 0 else if id.attempt == 1 then window + 1 else 2 * (window + 1)
  }

  ghost predicate EntryPrompt(id: RequestId, entry: PendingEntry, now: u64) {
    var w := entry.request.deadlineTicks;
    IssueTick(id, w) <= now <= entry.deadlineAbs && entry.deadlineAbs == Min(IssueTick(id, w) + w, U64_MAX)
  }

  ghost predicate EventPunctual(h: seq<Event>, e: Event) {
    match e
    case Issued(id, t, w) => t == IssueTick(id, w)
    case AppliedReply(_, _) => true
    case RetiredLate(_, _) => false
    case GivenUp(id, t, _) => exists t0: u64, w: u32 :: Issued(id, t0, w) in h && t == t0 + w + 1
  }

  ghost predicate Prompt(rt: Runtime, now: u64) {
    && (forall id :: id in rt.life.pending ==> EntryPrompt(id, rt.life.pending[id], now))
    && (forall e :: e in rt.history ==> EventPunctual(rt.history, e))
  }

  /** An expired request whose window ended on the tick before. */
  ghost predicate JustLapsed(h: seq<Event>, q: AgentRequest, now: u64) {
    now == IssueTick(q.id, q.deadlineTicks) + q.deadlineTicks + 1 && q.id.attempt <= MAX_ATTEMPTS && Known(h, q)
  }

  lemma PunctualGrows(h: seq<Event>, e: Event)
    requires forall x :: x in h ==> EventPunctual(h, x)
    requires EventPunctual(h + [e], e)
    ensures forall x :: x in h + [e] ==> EventPunctual(h + [e], x)
  {
    forall x | x in h ensures EventPunctual(h + [e], x) {
      if x.GivenUp? {
        var t0: u64, w: u32 :| Issued(x.id, t0, w) in h && x.tick == t0 + w + 1;
        assert Issued(x.id, t0, w) in h + [e];
      }
    }
  }

  /** Issuing or giving up a request that has just lapsed, seen on the history alone. */
  lemma LapsedPunctual(h: seq<Event>, q: AgentRequest, now: u64, e: Event)
    requires forall x :: x in h ==> EventPunctual(h, x)
    requires JustLapsed(h, q, now)
    requires (e == Issued(NextAttempt(q.id), now, q.deadlineTicks) && q.id.attempt < MAX_ATTEMPTS)
          || (e.GivenUp? && e.id == q.id && e.tick == now)
    ensures forall x :: x in h + [e] ==> EventPunctual(h + [e], x)
  {
    var t: u64 :| Issued(q.id, t, q.deadlineTicks) in h;
    assert EventPunctual(h, Issued(q.id, t, q.deadlineTicks));
    assert Issued(q.id, t, q.deadlineTicks) in h + [e];
    PunctualGrows(h, e);
  }

  lemma SettlePrompt(rt: Runtime, q: AgentRequest, now: u64)
    requires !HasPending(rt.life.pending, q.id.agentId) && Prompt(rt, now)
    requires JustLapsed(rt.history, q, now)
    ensures var rt' := Settle(rt, ExpiryOf(q, now), now).0;
      Prompt(rt', now) && |rt'.history| == |rt.history| + 1 && rt'.history[..|rt.history|] == rt.history
  {
    var rt' := Settle(rt, ExpiryOf(q, now), now).0;
    var e := rt'.history[|rt.history|];
    LapsedPunctual(rt.history, q, now, e);
    assert rt'.history == rt.history + [e];
  }

  lemma {:induction false} SettleAllPrompt(rt: Runtime, rest: seq<AgentRequest>, outs: seq<ExpiryOutcome>, now: u64)
    requires Consistent(rt, rest) && Prompt(rt, now)
    requires |outs| == |rest| && forall i :: 0 <= i < |rest| ==> outs[i] == ExpiryOf(rest[i], now)
    requires forall q :: q in rest ==> JustLapsed(rt.history, q, now)
    ensures Prompt(SettleAll(rt, outs, now).0, now)
    decreases rest
  {
    if rest != [] {
      var rt' := Settle(rt, outs[0], now).0;
      SettleKeeps(rt, rest, now);
      ReissueUnopposed(rt, rest);
      SettlePrompt(rt, rest[0], now);
      LapsedGrows(rt.history, rt'.history, rest, now);
      SettleAllPrompt(rt', rest[1..], outs[1..], now);
    }
  }

  lemma LapsedGrows(h: seq<Event>, h': seq<Event>, rest: seq<AgentRequest>, now: u64)
    requires |h'| == |h| + 1 && h'[..|h|] == h && rest != []
    requires forall q :: q in rest ==> JustLapsed(h, q, now)
    ensures forall q :: q in rest[1..] ==> JustLapsed(h', q, now)
  {
    assert h' == h + [h'[|h|]];
    LedgerGrows(h, h'[|h|]);
    forall q | q in rest[1..] ensures JustLapsed(h', q, now) {
      assert q in rest;
    }
  }

  /** After the overdue requests are taken out, what is left is prompt for `now` and what went has just lapsed. */
  lemma RetirePrompt(rt: Runtime, last: u64, now: u64)
    requires OnePerAgent(rt.life.pending) && Tracked(rt) && LiveLedger(rt.history, rt.timeline.nextId, Live(rt.life))
    requires forall id :: id in rt.life.pending ==> EntryPrompt(id, rt.life.pending[id], last)
    requires last <= now <= last + 1
    ensures var l := ExpireIn(rt.life, now).0;
      forall id :: id in l.pending ==> EntryPrompt(id, l.pending[id], now)
    ensures forall q :: q in Lapsed(rt.life, now) ==> JustLapsed(rt.history, q, now)
  {
    var rest := Lapsed(rt.life, now);
    var ids := Listing(Overdue(rt.life, now), AgentOf);
    OverdueListed(rt.life, now);
    RetireRemoves(rt.life, ids);
    forall q | q in rest ensures JustLapsed(rt.history, q, now) {
      var i :| 0 <= i < |rest| && rest[i] == q;
      assert ids[i] in ids;
      LiveIn(rt.life, ids[i]);
      assert EntryPrompt(ids[i], rt.life.pending[ids[i]], last);
    }
  }

  lemma SweepPrompt(rt: Runtime, last: u64, now: u64)
    requires Inv(rt) && OnePerAgent(rt.life.pending) && Prompt(rt, last)
    requires last <= now <= last + 1
    ensures Prompt(ExpireAll(rt, now).0, now)
  {
    var (l, outs) := ExpireIn(rt.life, now);
    InvLedger(rt);
    RetirePrompt(rt, last, now);
    RetireKeeps(rt, now);
    SettleAllPrompt(rt.(life := l), Lapsed(rt.life, now), outs, now);
  }

  lemma StepPrompt(rt: Runtime, s: Timed, last: u64)
    requires Inv(rt) && OnePerAgent(rt.life.pending) && Prompt(rt, last)
    requires s.now == last || (s.now == last + 1 && s.step.Sweep?)
    ensures Prompt(Next(rt, s), s.now)
  {
    var rt' := Next(rt, s);
    match s.step {
      case Sweep => SweepPrompt(rt, last, s.now);
      case Forward =>
      case _ =>
        if rt'.history != rt.history {
          assert rt'.history == rt.history + [rt'.history[|rt.history|]];
          PunctualGrows(rt.history, rt'.history[|rt.history|]);
        }
    }
  }

  lemma ThenPrompt(rt: Runtime, s: Timed, last: u64)
    requires Inv(rt) && rt.timeline.nextId < U64_MAX && Prompt(rt, last)
    requires s.now == last || (s.now == last + 1 && s.step.Sweep?)
    ensures Prompt(Then(rt, s), s.now)
  {
    InvOnePerAgent(rt);
    StepPrompt(rt, s, last);
  }

  lemma {:induction false} RunPrompt(rt: Runtime, steps: seq<Timed>)
    requires Inv(rt) && rt.timeline.nextId + |steps| <= U64_MAX && Fresh(rt)
    requires SweptFirst(steps) && steps != []
    ensures Prompt(Run(rt, steps), steps[|steps| - 1].now)
  {
    var n := |steps| - 1;
    if n == 0 {
      assert steps[..0] == [];
      ThenPrompt(rt, steps[0], steps[0].now);
    } else {
      RunPrompt(rt, steps[..n]);
      ThenPrompt(Run(rt, steps[..n]), steps[n], steps[n - 1].now);
    }
  }

  lemma PromptOver(rt: Runtime, now: u64, e: Event)
    requires Prompt(rt, now) && Tracked(rt) && LiveLedger(rt.history, rt.timeline.nextId, Live(rt.life))
    requires e in rt.history && e.Issued? && now >= e.id.sourceTick + 3 * (e.window + 1)
    ensures !LiveDecision(Live(rt.life), e.id.timelineId)
  {
    forall id | id in rt.life.pending ensures rt.life.pending[id].request.id.timelineId != e.id.timelineId {
      LiveIn(rt.life, id);
      assert EntryPrompt(id, rt.life.pending[id], now);
    }
  }

  lemma PunctualEnds(h: seq<Event>, nextId: nat, live: set<AgentRequest>, e: Event, x: Event)
    requires EventLedger(h, nextId, live) && (forall y :: y in h ==> EventPunctual(h, y))
    requires e in h && e.Issued? && x in h && IsEnd(x) && x.id.timelineId == e.id.timelineId
    ensures (x.AppliedReply? || x.GivenUp?) && x.tick <= e.id.sourceTick + 3 * (e.window + 1)
  {
    if x.AppliedReply? { assert OnTime(h, x.id, x.tick); }
    assert EventPunctual(h, x);
    var t: u64, w: u32 :| Issued(x.id, t, w) in h && x.tick <= t + w + 1;
    assert SameDecision(e, Issued(x.id, t, w));
    assert EventPunctual(h, Issued(x.id, t, w));
  }

  /**
   * When every tick sweeps before it answers, a decision asked at tick e with window d ends in exactly one
   * apply or give-up, by tick e + 3 (d + 1), after at most three attempts; no reply ever retires it late.
   */
  lemma ResolvedInTime(rt: Runtime, steps: seq<Timed>, e: Event)
    requires Inv(rt) && rt.timeline.nextId + |steps| <= U64_MAX && Fresh(rt)
    requires SweptFirst(steps) && steps != []
    requires e in Run(rt, steps).history && e.Issued?
    requires steps[|steps| - 1].now >= e.id.sourceTick + 3 * (e.window + 1)
    ensures Ends(Run(rt, steps).history, e.id.timelineId) == 1
    ensures forall x :: x in Run(rt, steps).history && IsEnd(x) && x.id.timelineId == e.id.timelineId ==>
              (x.AppliedReply? || x.GivenUp?) && x.tick <= e.id.sourceTick + 3 * (e.window + 1)
    ensures e.id.attempt <= MAX_ATTEMPTS
  {
    var end := Run(rt, steps);
    RunPrompt(rt, steps);
    InvLedger(end);
    PromptOver(end, steps[|steps| - 1].now, e);
    forall x | x in end.history && IsEnd(x) && x.id.timelineId == e.id.timelineId
      ensures (x.AppliedReply? || x.GivenUp?) && x.tick <= e.id.sourceTick + 3 * (e.window + 1)
    {
      PunctualEnds(end.history, end.timeline.nextId, Live(end.life), e, x);
    }
  }
}
