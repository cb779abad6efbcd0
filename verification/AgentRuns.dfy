/** Over runs of consecutive ticks an agent's state, its log and every pause are functions of what its backend answered. */
module AgentRuns {
  import opened Base
  import opened Order
  import opened Agents

  function AgentsAt(agents: seq<Agent>, demands: seq<Id>, ask: Backend, n: nat): AgentsState
    requires AgentsOk(agents) && n < U64_MAX
  {
    if n == 0 then FreshAgents(agents) else AgentTick(agents, demands, AgentsAt(agents, demands, ask, n - 1), ask, n)
  }

  // ---- One agent, without stored state ----

  /** A proposal to which nothing but a cooldown could be objected. */
  predicate Sound(a: Agent, demands: seq<Id>, ask: Backend, n: u64) {
    !a.kind.Llm? && ask(a.id, n).Some? && Objection(a, demands, ask(a.id, n).value).None?
  }

  /** The last tick up to n on which the agent's proposal was applied; 0 if none was. */
  function LastApplied(a: Agent, demands: seq<Id>, ask: Backend, n: nat): (t: nat)
    requires n < U64_MAX
    ensures t <= n
  {
    if n == 0 then 0
    else
      var before := LastApplied(a, demands, ask, n - 1);
      if n % a.interval == 0 && Sound(a, demands, ask, n) && (before == 0 || n >= before + a.cooldown) then n else before
  }

  /** The agent's proposal is applied on tick n. */
  predicate AppliesOn(a: Agent, demands: seq<Id>, ask: Backend, n: nat)
    requires n < U64_MAX
  {
    n > 0 && LastApplied(a, demands, ask, n) == n
  }

  function LastDecision(a: Agent, n: nat): Option<u64>
    requires n < U64_MAX
  {
    if n == 0 then None else if n % a.interval == 0 then Some(n) else LastDecision(a, n - 1)
  }

  function StateAt(a: Agent, demands: seq<Id>, ask: Backend, n: nat): AgentState
    requires n < U64_MAX
  {
    var applied := LastApplied(a, demands, ask, n);
    AgentState(LastDecision(a, n), if applied > 0 && a.cooldown > 0 then Some(SatAdd(applied, a.cooldown)) else None,
               a.kind.Llm? && n >= a.interval)
  }

  /** What the agent has to say on tick n. */
  function Said(a: Agent, demands: seq<Id>, ask: Backend, n: nat): seq<AgentEvent>
    requires n < U64_MAX
  {
    if n == 0 || n % a.interval != 0 then []
    else if a.kind.Llm? then (if n == a.interval then [LlmDisabled(a.id, n)] else [])
    else match ask(a.id, n)
      case None => []
      case Some(action) =>
        var before := LastApplied(a, demands, ask, n - 1);
        if before > 0 && n < before + a.cooldown then [Rejected(a.id, action.Kind(), action.demand, Cooldown, n)]
        else match Objection(a, demands, action)
          case Some(reason) => [Rejected(a.id, action.Kind(), action.demand, reason, n)]
          case None => [Applied(a.id, action.Kind(), action.demand, action.Cost(), n)]
  }

  function AgentTrail(a: Agent, demands: seq<Id>, ask: Backend, n: nat): seq<AgentEvent>
    requires n < U64_MAX
  {
    if n == 0 then [] else AgentTrail(a, demands, ask, n - 1) + Said(a, demands, ask, n)
  }

  function LogOf(es: seq<AgentEvent>, id: Id): seq<AgentEvent> {
    if es == [] then []
    else LogOf(es[..|es| - 1], id) + if es[|es| - 1].agent == id then [es[|es| - 1]] else []
  }

  // ---- Arithmetic of the cadence ----

  /** Deciding whenever a whole interval has passed since the last decision is deciding on the multiples. */
  lemma {:induction false} CadenceDivides(a: Agent, n: nat)
    requires n < U64_MAX
    ensures LastDecision(a, n).None? ==> n < a.interval
    ensures LastDecision(a, n).Some? ==>
      (var last := LastDecision(a, n).value; last % a.interval == 0 && a.interval <= last <= n < last + a.interval)
  {
    if n > 0 {
      CadenceDivides(a, n - 1);
      if n % a.interval == 0 {
        AtLeastOnce(n, a.interval);
      } else if LastDecision(a, n - 1).Some? {
        NoMultipleBetween(LastDecision(a, n - 1).value, n, a.interval);
      } else if n == a.interval {
        SelfMultiple(n);
      }
    }
  }

  lemma SelfMultiple(n: nat)
    requires n > 0
    ensures n % n == 0
  {
  }

  lemma AtLeastOnce(n: nat, c: nat)
    requires 0 < c && 0 < n && n % c == 0
    ensures c <= n
  {
    if n < c { Quotient(n, 0, n, c); }
  }

  lemma NoMultipleBetween(last: nat, n: nat, c: nat)
    requires 0 < c && last % c == 0 && n % c != 0 && n <= last + c
    ensures n < last + c
  {
    if n == last + c { NextMultiple(last, c); }
  }

  lemma NextMultiple(m: nat, c: nat)
    requires 0 < c && m % c == 0
    ensures (m + c) % c == 0
  {
    assert m == (m / c) * c;
    assert m + c == (m / c + 1) * c;
    Quotient(m + c, m / c + 1, 0, c);
  }

  lemma FiresOnMultiples(a: Agent, demands: seq<Id>, ask: Backend, n: nat)
    requires a.interval <= MAX_INTERVAL && 0 < n < U64_MAX
    ensures ShouldFire(a, StateAt(a, demands, ask, n - 1), n) <==> n % a.interval == 0
  {
    CadenceDivides(a, n - 1);
    var last := LastDecision(a, n - 1);
    if last.Some? {
      if n == last.value + a.interval {
        NextMultiple(last.value, a.interval);
      } else if n % a.interval == 0 {
        CadenceDivides(a, n);
        NoneBetween(last.value, n, a.interval);
      }
    } else if n % a.interval == 0 {
      AtLeastOnce(n, a.interval);
    }
  }

  lemma NoneBetween(last: nat, n: nat, c: nat)
    requires 0 < c && last % c == 0 && n % c == 0 && last < n
    ensures last + c <= n
  {
    var p, q := last / c, n / c;
    assert last == p * c && n == q * c;
    if q <= p {
      Times(q, p, c);
    } else {
      Times(p + 1, q, c);
    }
  }

  lemma Times(p: nat, q: nat, c: nat)
    requires p <= q
    ensures p * c <= q * c
  {
    assert q * c == p * c + (q - p) * c;
  }

  // ---- One tick, agent by agent ----

  lemma LogMore(es: seq<AgentEvent>, e: AgentEvent, id: Id)
    ensures LogOf(es + [e], id) == LogOf(es, id) + if e.agent == id then [e] else []
  {
    assert (es + [e])[..|es|] == es;
  }

  lemma DecideElse(a: Agent, demands: seq<Id>, s: AgentsState, ask: Backend, now: u64, id: Id)
    requires a.id != id
    ensures var r := Decide(a, demands, s, ask, now);
      && (id in r.agents <==> id in s.agents) && (id in s.agents ==> r.agents[id] == s.agents[id])
      && LogOf(r.events, id) == LogOf(s.events, id)
  {
    hide LogOf, Verdict, Pause, ShouldFire;
    forall e: AgentEvent | e.agent == a.id ensures LogOf(s.events + [e], id) == LogOf(s.events, id) {
      LogMore(s.events, e, id);
    }
  }

  lemma {:induction false} DecideElseFirst(agents: seq<Agent>, k: nat, demands: seq<Id>, s: AgentsState, ask: Backend, now: u64, id: Id)
    requires AgentsOk(agents) && k <= |agents| && forall j :: 0 <= j < k ==> agents[j].id != id
    ensures var r := DecideFirst(agents, k, demands, s, ask, now);
      && (id in r.agents <==> id in s.agents) && (id in s.agents ==> r.agents[id] == s.agents[id])
      && LogOf(r.events, id) == LogOf(s.events, id)
  {
    hide LogOf, Decide;
    if k > 0 {
      DecideElseFirst(agents, k - 1, demands, s, ask, now, id);
      DecideElse(agents[k - 1], demands, DecideFirst(agents, k - 1, demands, s, ask, now), ask, now, id);
    }
  }

  /** An agent that is where history says it is on tick n - 1 does on tick n what history says. */
  lemma DecideOwn(a: Agent, demands: seq<Id>, s: AgentsState, ask: Backend, n: nat)
    requires a.interval <= MAX_INTERVAL && a.cooldown <= MAX_COOLDOWN && 0 < n < U64_MAX
    requires a.id in s.agents && s.agents[a.id] == StateAt(a, demands, ask, n - 1)
    ensures var r := Decide(a, demands, s, ask, n);
      && a.id in r.agents && r.agents[a.id] == StateAt(a, demands, ask, n)
      && LogOf(r.events, a.id) == LogOf(s.events, a.id) + Said(a, demands, ask, n)
      && r.pauses == if AppliesOn(a, demands, ask, n) then Pause(s.pauses, ask(a.id, n).value, n) else s.pauses
  {
    FiresOnMultiples(a, demands, ask, n);
    var before := LastApplied(a, demands, ask, n - 1);
    if n % a.interval == 0 {
      AtLeastOnce(n, a.interval);
      var st := StateAt(a, demands, ask, n - 1);
      LlmFirst(a, n);
      CooldownOver(before, a.cooldown, n);
      DecideFires(a, demands, s, ask, n, st, before);
    } else {
      LlmLater(a, n);
      assert s.events + [] == s.events;
    }
  }

  lemma LlmFirst(a: Agent, n: nat)
    requires 0 < n && n % a.interval == 0
    ensures n - 1 >= a.interval <==> n != a.interval
  {
    AtLeastOnce(n, a.interval);
  }

  lemma LlmLater(a: Agent, n: nat)
    requires 0 < n && n % a.interval != 0
    ensures n - 1 >= a.interval <==> n >= a.interval
  {
    if n == a.interval { SelfMultiple(n); }
  }

  lemma CooldownOver(before: nat, cooldown: u64, n: u64)
    requires before < n < U64_MAX
    ensures n < SatAdd(before, cooldown) <==> n < before + cooldown
  {
  }

  lemma DecideFires(a: Agent, demands: seq<Id>, s: AgentsState, ask: Backend, n: nat, st: AgentState, before: nat)
    requires 0 < n < U64_MAX && n % a.interval == 0
    requires a.id in s.agents && s.agents[a.id] == st && ShouldFire(a, st, n)
    requires before == LastApplied(a, demands, ask, n - 1) && st == StateAt(a, demands, ask, n - 1)
    requires n - 1 >= a.interval <==> n != a.interval
    requires n >= a.interval && (n < SatAdd(before, a.cooldown) <==> n < before + a.cooldown)
    ensures var r := Decide(a, demands, s, ask, n);
      && a.id in r.agents && r.agents[a.id] == StateAt(a, demands, ask, n)
      && LogOf(r.events, a.id) == LogOf(s.events, a.id) + Said(a, demands, ask, n)
      && r.pauses == if AppliesOn(a, demands, ask, n) then Pause(s.pauses, ask(a.id, n).value, n) else s.pauses
  {
    hide LogOf, ShouldFire, Objection, Pause;
    forall e: AgentEvent | e.agent == a.id ensures LogOf(s.events + [e], a.id) == LogOf(s.events, a.id) + [e] {
      LogMore(s.events, e, a.id);
    }
  }

  // ---- Whole runs ----

  lemma AgentAt(agents: seq<Agent>, i: nat, j: nat)
    requires AgentsOk(agents) && i < |agents| && j < |agents|
    ensures agents[i].id == agents[j].id <==> i == j
  {
    if agents[i].id == agents[j].id { SortedDistinct(agents, AgentKey, i, j); }
  }

  /** The agent is where its own history puts it. */
  ghost predicate Tracks(a: Agent, demands: seq<Id>, ask: Backend, s: AgentsState, n: nat)
    requires n < U64_MAX
  {
    a.id in s.agents && s.agents[a.id] == StateAt(a, demands, ask, n)
  }

  lemma {:induction false} DecidedFirst(agents: seq<Agent>, k: nat, i: nat, demands: seq<Id>, s: AgentsState, ask: Backend, n: nat)
    requires AgentsOk(agents) && i < |agents| && k <= |agents| && 0 < n < U64_MAX
    requires Tracks(agents[i], demands, ask, s, n - 1)
    ensures var r := DecideFirst(agents, k, demands, s, ask, n);
      && Tracks(agents[i], demands, ask, r, if i < k then n else n - 1)
      && LogOf(r.events, agents[i].id) == LogOf(s.events, agents[i].id) + if i < k then Said(agents[i], demands, ask, n) else []
  {
    hide LogOf, Decide, StateAt, Said, LastApplied;
    if k > 0 {
      DecidedFirst(agents, k - 1, i, demands, s, ask, n);
      var before := DecideFirst(agents, k - 1, demands, s, ask, n);
      AgentAt(agents, i, k - 1);
      if i == k - 1 {
        DecideOwn(agents[i], demands, before, ask, n);
      } else {
        DecideElse(agents[k - 1], demands, before, ask, n, agents[i].id);
      }
    }
  }

  /** What the agents of tick n start from: the pauses that are over have been forgotten. */
  function Pruned(agents: seq<Agent>, demands: seq<Id>, ask: Backend, n: nat): AgentsState
    requires AgentsOk(agents) && 0 < n < U64_MAX
  {
    var s := AgentsAt(agents, demands, ask, n - 1);
    s.(pauses := PruneFirst(demands, |demands|, s.pauses, n))
  }

  lemma RunUnfold(agents: seq<Agent>, demands: seq<Id>, ask: Backend, n: nat)
    requires AgentsOk(agents) && 0 < n < U64_MAX
    ensures AgentsAt(agents, demands, ask, n) == DecideFirst(agents, |agents|, demands, Pruned(agents, demands, ask, n), ask, n)
    ensures Pruned(agents, demands, ask, n).events == AgentsAt(agents, demands, ask, n - 1).events
    ensures Pruned(agents, demands, ask, n).agents == AgentsAt(agents, demands, ask, n - 1).agents
    ensures Pruned(agents, demands, ask, n).pauses == PruneFirst(demands, |demands|, AgentsAt(agents, demands, ask, n - 1).pauses, n)
  {
  }

  lemma TracksSame(a: Agent, demands: seq<Id>, ask: Backend, s: AgentsState, s': AgentsState, n: nat)
    requires n < U64_MAX && Tracks(a, demands, ask, s, n) && s.agents == s'.agents
    ensures Tracks(a, demands, ask, s', n)
  {
  }

  lemma TrailUnfold(a: Agent, demands: seq<Id>, ask: Backend, n: nat)
    requires n < U64_MAX
    ensures AgentTrail(a, demands, ask, n) == if n == 0 then [] else AgentTrail(a, demands, ask, n - 1) + Said(a, demands, ask, n)
  {
  }

  lemma FreshTracks(agents: seq<Agent>, demands: seq<Id>, ask: Backend, i: nat)
    requires AgentsOk(agents) && i < |agents|
    ensures Tracks(agents[i], demands, ask, AgentsAt(agents, demands, ask, 0), 0)
    ensures LogOf(AgentsAt(agents, demands, ask, 0).events, agents[i].id) == []
  {
    assert agents[i] in agents;
  }

  /**
   * After tick n of any run an agent has decided on the multiples of its interval, its cooldown counts from the
   * last applied proposal, and its log is what it had to say on each tick.
   */
  lemma {:induction false} AgentHistory(agents: seq<Agent>, demands: seq<Id>, ask: Backend, n: nat, i: nat)
    requires AgentsOk(agents) && n < U64_MAX && i < |agents|
    ensures Tracks(agents[i], demands, ask, AgentsAt(agents, demands, ask, n), n)
    ensures LogOf(AgentsAt(agents, demands, ask, n).events, agents[i].id) == AgentTrail(agents[i], demands, ask, n)
  {
    hide *;
    TrailUnfold(agents[i], demands, ask, n);
    if n == 0 {
      FreshTracks(agents, demands, ask, i);
    } else {
      AgentHistory(agents, demands, ask, n - 1, i);
      RunUnfold(agents, demands, ask, n);
      TracksSame(agents[i], demands, ask, AgentsAt(agents, demands, ask, n - 1), Pruned(agents, demands, ask, n), n - 1);
      DecidedFirst(agents, |agents|, i, demands, Pruned(agents, demands, ask, n), ask, n);
    }
  }

  lemma {:induction false} LastAppliedGrows(a: Agent, demands: seq<Id>, ask: Backend, s: nat, t: nat)
    requires s <= t < U64_MAX && AppliesOn(a, demands, ask, s)
    ensures LastApplied(a, demands, ask, t) >= s
    decreases t
  {
    if s < t { LastAppliedGrows(a, demands, ask, s, t - 1); }
  }

  /** Two applied proposals of one agent are at least its interval and its cooldown apart. */
  lemma AppliedApart(a: Agent, demands: seq<Id>, ask: Backend, s: nat, t: nat)
    requires s < t < U64_MAX
    requires AppliesOn(a, demands, ask, s) && AppliesOn(a, demands, ask, t)
    ensures t >= s + Max(a.interval, a.cooldown)
  {
    LastAppliedGrows(a, demands, ask, s, t - 1);
    NoneBetween(s, t, a.interval);
  }

  lemma SaidApplied(a: Agent, demands: seq<Id>, ask: Backend, n: nat)
    requires 0 < n < U64_MAX
    ensures forall e :: e in Said(a, demands, ask, n) ==> e.tick == n
    ensures (exists e :: e in Said(a, demands, ask, n) && e.Applied?) <==> AppliesOn(a, demands, ask, n)
  {
    var said := Said(a, demands, ask, n);
    if AppliesOn(a, demands, ask, n) { assert said[0] in said; }
  }

  /** The log says Applied on exactly the ticks on which a proposal was applied. */
  lemma {:induction false} AppliedIsLogged(a: Agent, demands: seq<Id>, ask: Backend, n: nat, t: nat)
    requires n < U64_MAX
    ensures (exists e :: e in AgentTrail(a, demands, ask, n) && e.Applied? && e.tick == t) <==> t <= n && AppliesOn(a, demands, ask, t)
  {
    if n > 0 {
      AppliedIsLogged(a, demands, ask, n - 1, t);
      var before, said := AgentTrail(a, demands, ask, n - 1), Said(a, demands, ask, n);
      SaidApplied(a, demands, ask, n);
      hide Said, AppliesOn, LastApplied;
    }
  }

  // ---- Pauses ----

  /** A proposal applied on tick t holds demand d paused on tick m. */
  predicate HoldsBack(a: Agent, demands: seq<Id>, ask: Backend, t: nat, d: Id, m: nat)
    requires t < U64_MAX
  {
    && AppliesOn(a, demands, ask, t) && ask(a.id, t).Some?
    && ask(a.id, t).value.demand == d && t < m <= t + ask(a.id, t).value.pause
  }

  lemma PauseAdds(pauses: map<Id, u64>, action: Action, now: u64, d: Id, m: u64)
    requires now < m < U64_MAX
    ensures Paused(Pause(pauses, action, now), d, m) <==> Paused(pauses, d, m) || (action.demand == d && m <= now + action.pause)
  {
  }

  lemma {:induction false} PausesFirst(agents: seq<Agent>, k: nat, demands: seq<Id>, s: AgentsState, ask: Backend, n: nat, d: Id, m: u64)
    requires AgentsOk(agents) && k <= |agents| && 0 < n < m < U64_MAX
    requires AllTrack(agents, demands, ask, s, n - 1)
    ensures Paused(DecideFirst(agents, k, demands, s, ask, n).pauses, d, m)
      <==> Paused(s.pauses, d, m) || exists i :: 0 <= i < k && HoldsBack(agents[i], demands, ask, n, d, m)
  {
    hide *;
    DecideUnfold(agents, k, demands, s, ask, n);
    if k > 0 {
      PausesFirst(agents, k - 1, demands, s, ask, n, d, m);
      var before := DecideFirst(agents, k - 1, demands, s, ask, n);
      TrackOne(agents, k - 1, demands, ask, s, n - 1);
      DecidedFirst(agents, k - 1, k - 1, demands, s, ask, n);
      PauseOne(agents[k - 1], demands, before, ask, n, d, m);
    }
  }

  ghost predicate AllTrack(agents: seq<Agent>, demands: seq<Id>, ask: Backend, s: AgentsState, n: nat)
    requires AgentsOk(agents) && n < U64_MAX
  {
    forall i :: 0 <= i < |agents| ==> Tracks(agents[i], demands, ask, s, n)
  }

  lemma TrackOne(agents: seq<Agent>, i: nat, demands: seq<Id>, ask: Backend, s: AgentsState, n: nat)
    requires AgentsOk(agents) && n < U64_MAX && AllTrack(agents, demands, ask, s, n) && i < |agents|
    ensures Tracks(agents[i], demands, ask, s, n)
    ensures agents[i].interval <= MAX_INTERVAL && agents[i].cooldown <= MAX_COOLDOWN
  {
  }

  lemma DecideUnfold(agents: seq<Agent>, k: nat, demands: seq<Id>, s: AgentsState, ask: Backend, n: u64)
    requires k <= |agents|
    ensures DecideFirst(agents, k, demands, s, ask, n)
      == if k == 0 then s else Decide(agents[k - 1], demands, DecideFirst(agents, k - 1, demands, s, ask, n), ask, n)
  {
  }

  lemma PauseOne(a: Agent, demands: seq<Id>, s: AgentsState, ask: Backend, n: nat, d: Id, m: u64)
    requires a.interval <= MAX_INTERVAL && a.cooldown <= MAX_COOLDOWN && 0 < n < m < U64_MAX
    requires Tracks(a, demands, ask, s, n - 1)
    ensures Paused(Decide(a, demands, s, ask, n).pauses, d, m) <==> Paused(s.pauses, d, m) || HoldsBack(a, demands, ask, n, d, m)
  {
    hide Decide, LogOf, Said, Pause, Paused, Objection;
    DecideOwn(a, demands, s, ask, n);
    if AppliesOn(a, demands, ask, n) {
      PauseAdds(s.pauses, ask(a.id, n).value, n, d, m);
    }
  }

  /** Some agent's proposal, applied by tick n, holds d back on tick m. */
  ghost predicate HeldBack(agents: seq<Agent>, demands: seq<Id>, ask: Backend, n: nat, d: Id, m: nat)
    requires AgentsOk(agents) && n < U64_MAX
  {
    exists i: nat, t: nat :: i < |agents| && t <= n && HoldsBack(agents[i], demands, ask, t, d, m)
  }

  /**
   * Looked at after tick n, a demand is paused for a later tick m exactly when some proposal applied by n, by
   * any agent, reaches m: throttling on t for p ticks suppresses t + 1 to t + p, whoever else throttles.
   */
  lemma {:induction false} PausedExactly(agents: seq<Agent>, demands: seq<Id>, ask: Backend, n: nat, d: Id, m: u64)
    requires AgentsOk(agents) && n < m < U64_MAX
    ensures Paused(AgentsAt(agents, demands, ask, n).pauses, d, m) <==> HeldBack(agents, demands, ask, n, d, m)
  {
    hide *;
    if n == 0 {
      NothingHeldBack(agents, demands, ask, d, m);
    } else {
      PausedExactly(agents, demands, ask, n - 1, d, m);
      RunUnfold(agents, demands, ask, n);
      EveryoneTracks(agents, demands, ask, n);
      PruneKeeps(demands, |demands|, AgentsAt(agents, demands, ask, n - 1).pauses, n, d, m);
      PausesFirst(agents, |agents|, demands, Pruned(agents, demands, ask, n), ask, n, d, m);
      HeldBackStep(agents, demands, ask, n, d, m);
    }
  }

  lemma NothingHeldBack(agents: seq<Agent>, demands: seq<Id>, ask: Backend, d: Id, m: u64)
    requires AgentsOk(agents)
    ensures !HeldBack(agents, demands, ask, 0, d, m) && !Paused(AgentsAt(agents, demands, ask, 0).pauses, d, m)
  {
  }

  lemma OneTracks(agents: seq<Agent>, demands: seq<Id>, ask: Backend, n: nat, i: nat)
    requires AgentsOk(agents) && 0 < n < U64_MAX && i < |agents|
    ensures Tracks(agents[i], demands, ask, Pruned(agents, demands, ask, n), n - 1)
  {
    hide *;
    RunUnfold(agents, demands, ask, n);
    AgentHistory(agents, demands, ask, n - 1, i);
    TracksSame(agents[i], demands, ask, AgentsAt(agents, demands, ask, n - 1), Pruned(agents, demands, ask, n), n - 1);
  }

  lemma EveryoneTracks(agents: seq<Agent>, demands: seq<Id>, ask: Backend, n: nat)
    requires AgentsOk(agents) && 0 < n < U64_MAX
    ensures AllTrack(agents, demands, ask, Pruned(agents, demands, ask, n), n - 1)
  {
    hide AgentsAt, Pruned, Tracks, SortedBy;
    forall i | 0 <= i < |agents| ensures Tracks(agents[i], demands, ask, Pruned(agents, demands, ask, n), n - 1) {
      OneTracks(agents, demands, ask, n, i);
    }
  }

  lemma HeldBackStep(agents: seq<Agent>, demands: seq<Id>, ask: Backend, n: nat, d: Id, m: nat)
    requires AgentsOk(agents) && 0 < n < U64_MAX
    ensures HeldBack(agents, demands, ask, n, d, m) <==>
      HeldBack(agents, demands, ask, n - 1, d, m) || exists i :: 0 <= i < |agents| && HoldsBack(agents[i], demands, ask, n, d, m)
  {
    hide HoldsBack;
    if HeldBack(agents, demands, ask, n, d, m) {
      var i: nat, t: nat :| i < |agents| && t <= n && HoldsBack(agents[i], demands, ask, t, d, m);
      if t < n { assert HeldBack(agents, demands, ask, n - 1, d, m); }
    }
  }
}
