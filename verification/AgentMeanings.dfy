/** When an agent's proposal is applied, and why it is refused, told without any stored state. */
module AgentMeanings {
  import opened Base
  import opened Order
  import opened Agents
  import opened AgentRuns

  /** A throttle the agent may make: of an allowed kind, of a declared demand in its scope, within its budget, for a sensible time. */
  predicate Permitted(a: Agent, demands: seq<Id>, action: Action) {
    && ThrottleDemand in a.allowed && action.demand in demands && AtDemand(action.demand) in a.scope
    && 1 <= a.maxCost && 1 <= action.pause <= 1_000_000
  }

  /** An application less than the cooldown before tick n. */
  ghost predicate Cooling(a: Agent, demands: seq<Id>, ask: Backend, n: nat)
    requires n < U64_MAX
  {
    exists t :: 0 < t < n && AppliesOn(a, demands, ask, t) && n < t + a.cooldown
  }

  /** What a backend proposes on tick n, if that is one of the agent's ticks. */
  function Proposal(a: Agent, ask: Backend, n: nat): Option<Action>
    requires n < U64_MAX
  {
    if n > 0 && n % a.interval == 0 && !a.kind.Llm? then ask(a.id, n) else None
  }

  lemma {:induction false} LastIsLatest(a: Agent, demands: seq<Id>, ask: Backend, n: nat)
    requires n < U64_MAX
    ensures var last := LastApplied(a, demands, ask, n);
      && (last > 0 ==> AppliesOn(a, demands, ask, last))
      && forall t :: 0 < t <= n && AppliesOn(a, demands, ask, t) ==> t <= last
  {
    if n > 0 {
      LastIsLatest(a, demands, ask, n - 1);
      hide Sound;
    }
  }

  lemma CoolingMeans(a: Agent, demands: seq<Id>, ask: Backend, n: nat)
    requires 0 < n < U64_MAX
    ensures var before := LastApplied(a, demands, ask, n - 1); before > 0 && n < before + a.cooldown <==> Cooling(a, demands, ask, n)
  {
    LastIsLatest(a, demands, ask, n - 1);
    hide AppliesOn, LastApplied;
  }

  /** On every run an agent's proposal is applied exactly if it is permitted and the agent is not cooling down. */
  lemma AppliesExactly(a: Agent, demands: seq<Id>, ask: Backend, n: nat)
    requires n < U64_MAX
    ensures AppliesOn(a, demands, ask, n) <==>
      var proposed := Proposal(a, ask, n); proposed.Some? && Permitted(a, demands, proposed.value) && !Cooling(a, demands, ask, n)
  {
    if n > 0 {
      CoolingMeans(a, demands, ask, n);
      hide Cooling;
    }
  }

  /** What the agent is said to have done with a proposal: applied at cost 1, or refused, for the first reason there is. */
  lemma ProposalTold(a: Agent, demands: seq<Id>, ask: Backend, n: nat)
    requires n < U64_MAX && Proposal(a, ask, n).Some?
    ensures var x := Proposal(a, ask, n).value; var e := Said(a, demands, ask, n);
      var known, inScope := x.demand in demands, AtDemand(x.demand) in a.scope;
      && |e| == 1 && e[0].agent == a.id && e[0].tick == n && (e[0].Applied? || e[0].Rejected?) && e[0].kind == ThrottleDemand && e[0].target == x.demand
      && (e[0].Applied? <==> Permitted(a, demands, x) && !Cooling(a, demands, ask, n))
      && (e[0].Applied? ==> e[0].cost == 1)
      && (e[0].Rejected? ==>
            && (e[0].reason == Cooldown <==> Cooling(a, demands, ask, n))
            && (e[0].reason == ActionNotAllowed <==> !Cooling(a, demands, ask, n) && ThrottleDemand !in a.allowed)
            && (e[0].reason == TargetUnknown <==> !Cooling(a, demands, ask, n) && ThrottleDemand in a.allowed && !known)
            && (e[0].reason == OutOfScope <==> !Cooling(a, demands, ask, n) && ThrottleDemand in a.allowed && known && !inScope)
            && (e[0].reason == CostExceedsBudget <==> !Cooling(a, demands, ask, n) && ThrottleDemand in a.allowed && known && inScope && a.maxCost < 1)
            && (e[0].reason == InvalidParameter <==>
                  !Cooling(a, demands, ask, n) && ThrottleDemand in a.allowed && known && inScope && 1 <= a.maxCost && !(1 <= x.pause <= 1_000_000)))
  {
    CoolingMeans(a, demands, ask, n);
    hide Cooling, LastApplied;
  }

  /** Without a proposal an agent says nothing, but for a model-backed one that says once that it is disabled. */
  lemma SilenceTold(a: Agent, demands: seq<Id>, ask: Backend, n: nat)
    requires n < U64_MAX && Proposal(a, ask, n).None?
    ensures Said(a, demands, ask, n) == if a.kind.Llm? && n == a.interval then [LlmDisabled(a.id, n)] else []
  {
    if n > 0 && n == a.interval { SelfMultiple(n); }
  }
}
