/** The outcome of a game is a function of the history of its failure predicates. */
module GoalRuns {
  import opened Base
  import opened Order
  import opened Sl1Scene
  import opened Plants
  import opened Goals

  /** What the game is after tick n. */
  function GoalsAt(r: Rules, ss: seq<Snapshot>, n: nat): GoalState
    requires n <= |ss| <= U64_MAX
  {
    if n == 0 then FreshGoals(r) else GoalTick(r, GoalsAt(r, ss, n - 1), ss[n - 1], n)
  }

  /** The same, judged on every tick even after the game is over. */
  function JudgedAt(r: Rules, ss: seq<Snapshot>, n: nat): GoalState
    requires n <= |ss| <= U64_MAX
  {
    if n == 0 then FreshGoals(r) else Judge(r, JudgedAt(r, ss, n - 1), ss[n - 1], n)
  }

  /** On how many ticks up to n the objective was breached. */
  function BreachTicks(r: Rules, ss: seq<Snapshot>, o: Objective, n: nat): nat
    requires n <= |ss| <= U64_MAX
  {
    if n == 0 then 0 else BreachTicks(r, ss, o, n - 1) + if Evaluate(r, o, ss[n - 1], n).Breached? then 1 else 0
  }

  /** Failure condition f is breached on tick n, told from the snapshots alone. */
  predicate BreachedOn(r: Rules, ss: seq<Snapshot>, f: Failure, n: nat)
    requires n <= |ss| <= U64_MAX
  {
    n > 0 &&
    match f.params
    case BreachCount(id, maxCount) => exists i :: 0 <= i < |r.objectives| && r.objectives[i].id == id && BreachTicks(r, ss, r.objectives[i], n) > maxCount
    case _ => Breaches(r, f, ss[n - 1], map[], n)
  }

  /** For how many consecutive ticks, up to and including n, it has been breached. */
  function Streak(r: Rules, ss: seq<Snapshot>, f: Failure, n: nat): nat
    requires n <= |ss| <= U64_MAX
  {
    if n == 0 || !BreachedOn(r, ss, f, n) then 0 else Streak(r, ss, f, n - 1) + 1
  }

  /** It has been breached for more than its grace. */
  predicate Fails(r: Rules, ss: seq<Snapshot>, f: Failure, n: nat)
    requires n <= |ss| <= U64_MAX
  {
    Streak(r, ss, f, n) > Grace(f.params)
  }

  /** The lowest failure condition that fails on tick n. */
  function LowestFailing(r: Rules, ss: seq<Snapshot>, fs: seq<Failure>, n: nat): Option<Id>
    requires n <= |ss| <= U64_MAX
  {
    if fs == [] then None else if Fails(r, ss, fs[0], n) then Some(fs[0].id) else LowestFailing(r, ss, fs[1..], n)
  }

  ghost predicate IsFirstFailure(r: Rules, ss: seq<Snapshot>, n: nat, f: Option<nat>)
    requires n <= |ss| <= U64_MAX
  {
    && (f.Some? ==> 1 <= f.value <= n && LowestFailing(r, ss, r.failures, f.value).Some?)
    && (forall k :: 1 <= k <= n && (f.Some? ==> k < f.value) ==> LowestFailing(r, ss, r.failures, k).None?)
  }

  /** The first tick up to n on which some failure condition fails. */
  function FirstFailure(r: Rules, ss: seq<Snapshot>, n: nat): (f: Option<nat>)
    requires n <= |ss| <= U64_MAX
    ensures IsFirstFailure(r, ss, n, f)
  {
    hide LowestFailing;
    if n == 0 then None
    else
      var before := FirstFailure(r, ss, n - 1);
      if before.Some? then before
      else if LowestFailing(r, ss, r.failures, n).Some? then Some(n)
      else None
  }

  /** The tick by which every victory condition is met. */
  function LastVictory(vs: seq<Victory>): (t: nat)
    ensures forall i :: 0 <= i < |vs| ==> vs[i].atTick <= t
    ensures vs != [] ==> exists i :: 0 <= i < |vs| && vs[i].atTick == t
  {
    if vs == [] then 0
    else
      var rest := LastVictory(vs[1..]);
      assert forall i :: 1 <= i < |vs| ==> vs[i] == vs[1..][i - 1];
      assert vs[1..] != [] ==> exists i :: 0 <= i < |vs[1..]| && vs[1..][i].atTick == rest && vs[i + 1].atTick == rest;
      Max(vs[0].atTick, rest)
  }

  /** Who has won after tick n, told from the failure predicates alone. */
  function OutcomeOf(r: Rules, ss: seq<Snapshot>, n: nat): Outcome
    requires n <= |ss| <= U64_MAX
  {
    var f := FirstFailure(r, ss, n);
    var t := LastVictory(r.victories);
    if f.Some? && (r.victories == [] || f.value <= t) then Lost(LowestFailing(r, ss, r.failures, f.value).value)
    else if r.victories != [] && t <= n then Won
    else InProgress
  }

  // ---- How each list of judgements acts on the state ----

  lemma {:induction false} ObjectivesOnly(r: Rules, k: nat, g: GoalState, s: Snapshot, now: u64)
    requires k <= |r.objectives|
    ensures var g' := JudgeObjectives(r, k, g, s, now);
      g'.failures == g.failures && g'.victories == g.victories && g'.outcome == g.outcome
  {
    if k > 0 { ObjectivesOnly(r, k - 1, g, s, now); }
  }

  lemma {:induction false} FailuresAt(r: Rules, k: nat, i: nat, g: GoalState, s: Snapshot, now: u64)
    requires RulesOk(r) && k <= |r.failures| && i < |r.failures|
    ensures var g' := JudgeFailures(r, k, g, s, now); var f := r.failures[i];
      && g'.objectives == g.objectives && g'.victories == g.victories && g'.outcome == g.outcome
      && var was := FailureOf(g, f.id); var streak := if Breaches(r, f, s, g.objectives, now) then SatAdd(was.streak, 1) else 0;
         FailureOf(g', f.id) == if i < k
           then FailureState(streak, if was.firedAt.None? && streak > Grace(f.params) then Some(now) else was.firedAt)
           else was
  {
    if k > 0 {
      FailuresAt(r, k - 1, i, g, s, now);
      if r.failures[k - 1].id == r.failures[i].id { SortedDistinct(r.failures, FailureKey, k - 1, i); }
    }
  }

  lemma {:induction false} VictoriesAt(r: Rules, k: nat, i: nat, g: GoalState, now: u64)
    requires RulesOk(r) && k <= |r.victories| && i < |r.victories|
    ensures var g' := JudgeVictories(r, k, g, now); var v := r.victories[i];
      && g'.failures == g.failures && g'.objectives == g.objectives && g'.outcome == g.outcome
      && VictoryOf(g', v.id) == if i < k && now >= v.atTick && VictoryOf(g, v.id).None? then Some(now) else VictoryOf(g, v.id)
  {
    if k > 0 {
      VictoriesAt(r, k - 1, i, g, now);
      if r.victories[k - 1].id == r.victories[i].id { SortedDistinct(r.victories, VictoryKey, k - 1, i); }
    }
  }

  lemma JudgeParts(r: Rules, g: GoalState, s: Snapshot, now: u64)
    requires RulesOk(r)
    ensures var g' := Judge(r, g, s, now); var objectives := JudgeObjectives(r, |r.objectives|, g, s, now).objectives;
      && g'.objectives == objectives
      && (forall i :: 0 <= i < |r.failures| ==>
            var f := r.failures[i]; var was := FailureOf(g, f.id);
            var streak := if Breaches(r, f, s, objectives, now) then SatAdd(was.streak, 1) else 0;
            FailureOf(g', f.id) == FailureState(streak, if was.firedAt.None? && streak > Grace(f.params) then Some(now) else was.firedAt))
      && (forall i :: 0 <= i < |r.victories| ==>
            var v := r.victories[i];
            VictoryOf(g', v.id) == if now >= v.atTick && VictoryOf(g, v.id).None? then Some(now) else VictoryOf(g, v.id))
      && g'.outcome == Settled(r, g')
  {
    hide JudgeObjectives, JudgeFailures, JudgeVictories, FirstFired, PhaseOf, Breaches, AllMet;
    var g1 := JudgeObjectives(r, |r.objectives|, g, s, now);
    ObjectivesOnly(r, |r.objectives|, g, s, now);
    var g2 := JudgeFailures(r, |r.failures|, g1, s, now);
    var g3 := JudgeVictories(r, |r.victories|, g2, now);
    FailuresFrame(r, |r.failures|, g1, s, now);
    VictoriesFrame(r, |r.victories|, g2, now);
    forall i | 0 <= i < |r.failures|
      ensures var f := r.failures[i]; var was := FailureOf(g, f.id);
            var streak := if Breaches(r, f, s, g1.objectives, now) then SatAdd(was.streak, 1) else 0;
            FailureOf(g3, f.id) == FailureState(streak, if was.firedAt.None? && streak > Grace(f.params) then Some(now) else was.firedAt)
    {
      FailuresAt(r, |r.failures|, i, g1, s, now);
    }
    forall i | 0 <= i < |r.victories|
      ensures var v := r.victories[i];
            VictoryOf(g3, v.id) == if now >= v.atTick && VictoryOf(g, v.id).None? then Some(now) else VictoryOf(g, v.id)
    {
      VictoriesAt(r, |r.victories|, i, g2, now);
    }
    SettledSame(r, g3, Judge(r, g, s, now));
  }

  lemma {:induction false} FailuresFrame(r: Rules, k: nat, g: GoalState, s: Snapshot, now: u64)
    requires k <= |r.failures|
    ensures var g' := JudgeFailures(r, k, g, s, now); g'.objectives == g.objectives && g'.victories == g.victories && g'.outcome == g.outcome
  {
    if k > 0 { FailuresFrame(r, k - 1, g, s, now); }
  }

  lemma {:induction false} VictoriesFrame(r: Rules, k: nat, g: GoalState, now: u64)
    requires k <= |r.victories|
    ensures var g' := JudgeVictories(r, k, g, now); g'.objectives == g.objectives && g'.failures == g.failures && g'.outcome == g.outcome
  {
    if k > 0 { VictoriesFrame(r, k - 1, g, now); }
  }

  lemma SettledSame(r: Rules, g: GoalState, g': GoalState)
    requires g.failures == g'.failures && g.victories == g'.victories
    ensures Settled(r, g) == Settled(r, g')
  {
    FiredSame(r.failures, g, g');
  }

  lemma {:induction false} FiredSame(fs: seq<Failure>, g: GoalState, g': GoalState)
    requires g.failures == g'.failures
    ensures FirstFired(fs, g) == FirstFired(fs, g')
  {
    if fs != [] { FiredSame(fs[1..], g, g'); }
  }

  // ---- The judged run, told from the predicates ----

  function FiredBy(r: Rules, ss: seq<Snapshot>, f: Failure, n: nat): bool
    requires n <= |ss| <= U64_MAX
  {
    n > 0 && (FiredBy(r, ss, f, n - 1) || Fails(r, ss, f, n))
  }

  lemma {:induction false} StreakBounded(r: Rules, ss: seq<Snapshot>, f: Failure, n: nat)
    requires n <= |ss| <= U64_MAX
    ensures Streak(r, ss, f, n) <= n
  {
    hide BreachedOn, Judge;
    if n > 0 { StreakBounded(r, ss, f, n - 1); }
  }

  /** The stored streaks and firings are those of the predicates; a victory is met from its tick on. */
  ghost predicate Told(r: Rules, ss: seq<Snapshot>, n: nat)
    requires n <= |ss| <= U64_MAX
  {
    var g := JudgedAt(r, ss, n);
    && (forall i :: 0 <= i < |r.failures| ==>
          var f := r.failures[i];
          FailureOf(g, f.id).streak == Streak(r, ss, f, n) && (FailureOf(g, f.id).firedAt.Some? <==> FiredBy(r, ss, f, n)))
    && (forall i :: 0 <= i < |r.victories| ==> (VictoryOf(g, r.victories[i].id).Some? <==> n >= r.victories[i].atTick))
  }

  lemma {:induction false} ObjectivesAt(r: Rules, k: nat, i: nat, g: GoalState, s: Snapshot, now: u64)
    requires RulesOk(r) && k <= |r.objectives| && i < |r.objectives|
    ensures var g' := JudgeObjectives(r, k, g, s, now); var o := r.objectives[i]; var was := ObjectiveOf(g, o.id).breaches;
      && ObjectiveOf(g', o.id).breaches == (if i < k && Evaluate(r, o, s, now).Breached? then SatAdd(was, 1) else was)
      && (o.id in g'.objectives <==> o.id in g.objectives || i < k)
  {
    hide Evaluate;
    if k > 0 {
      ObjectivesAt(r, k - 1, i, g, s, now);
      if r.objectives[k - 1].id == r.objectives[i].id { SortedDistinct(r.objectives, ObjectiveKey, k - 1, i); }
    }
  }

  lemma {:induction false} OnlyDeclared(r: Rules, k: nat, g: GoalState, s: Snapshot, now: u64, id: Id)
    requires k <= |r.objectives| && id !in g.objectives && forall i :: 0 <= i < |r.objectives| ==> r.objectives[i].id != id
    ensures id !in JudgeObjectives(r, k, g, s, now).objectives
  {
    hide Evaluate;
    if k > 0 { OnlyDeclared(r, k - 1, g, s, now, id); }
  }

  lemma {:induction false} BreachTicksBounded(r: Rules, ss: seq<Snapshot>, o: Objective, n: nat)
    requires n <= |ss| <= U64_MAX
    ensures BreachTicks(r, ss, o, n) <= n
  {
    hide Evaluate;
    if n > 0 { BreachTicksBounded(r, ss, o, n - 1); }
  }

  lemma JudgedObjectives(r: Rules, ss: seq<Snapshot>, n: nat)
    requires RulesOk(r) && 0 < n <= |ss| <= U64_MAX
    ensures JudgedAt(r, ss, n).objectives == JudgeObjectives(r, |r.objectives|, JudgedAt(r, ss, n - 1), ss[n - 1], n).objectives
  {
    hide Judge, JudgeObjectives, Evaluate, RulesOk, Settled, Breaches, FailureOf, VictoryOf;
    JudgeParts(r, JudgedAt(r, ss, n - 1), ss[n - 1], n);
  }

  lemma FreshObjectives(r: Rules, ss: seq<Snapshot>, i: nat)
    requires |ss| <= U64_MAX
    ensures var g := JudgedAt(r, ss, 0);
      && (i < |r.objectives| ==> r.objectives[i].id in g.objectives && g.objectives[r.objectives[i].id].breaches == 0)
      && (forall id :: id in g.objectives ==> exists j :: 0 <= j < |r.objectives| && r.objectives[j].id == id)
  {
    if i < |r.objectives| { assert r.objectives[i] in r.objectives; }
  }

  /** The stored breach count of an objective is the number of ticks on which it was breached. */
  lemma {:induction false} BreachesCounted(r: Rules, ss: seq<Snapshot>, n: nat, i: nat)
    requires RulesOk(r) && n <= |ss| <= U64_MAX && i < |r.objectives|
    ensures var g, o := JudgedAt(r, ss, n), r.objectives[i];
      o.id in g.objectives && g.objectives[o.id].breaches == BreachTicks(r, ss, o, n)
  {
    hide JudgedAt, JudgeObjectives, Evaluate, RulesOk;
    if n == 0 {
      FreshObjectives(r, ss, i);
    } else {
      BreachesCounted(r, ss, n - 1, i);
      BreachTicksBounded(r, ss, r.objectives[i], n - 1);
      JudgedObjectives(r, ss, n);
      ObjectivesAt(r, |r.objectives|, i, JudgedAt(r, ss, n - 1), ss[n - 1], n);
    }
  }

  lemma {:induction false} NoOthers(r: Rules, ss: seq<Snapshot>, n: nat, id: Id)
    requires RulesOk(r) && n <= |ss| <= U64_MAX && forall i :: 0 <= i < |r.objectives| ==> r.objectives[i].id != id
    ensures id !in JudgedAt(r, ss, n).objectives
  {
    hide JudgedAt, JudgeObjectives, RulesOk;
    if n == 0 {
      FreshObjectives(r, ss, 0);
    } else {
      NoOthers(r, ss, n - 1, id);
      JudgedObjectives(r, ss, n);
      OnlyDeclared(r, |r.objectives|, JudgedAt(r, ss, n - 1), ss[n - 1], n, id);
    }
  }

  /** What the engine tests, on its stored counts, is what the snapshots say. */
  lemma BreachIsTold(r: Rules, ss: seq<Snapshot>, f: Failure, n: nat)
    requires RulesOk(r) && 0 < n <= |ss| <= U64_MAX
    ensures BreachedOn(r, ss, f, n) <==> Breaches(r, f, ss[n - 1], JudgedAt(r, ss, n).objectives, n)
  {
    if f.params.BreachCount? {
      hide JudgedAt, RulesOk, BreachTicks;
      if i :| 0 <= i < |r.objectives| && r.objectives[i].id == f.params.objective {
        BreachesCounted(r, ss, n, i);
        forall j | 0 <= j < |r.objectives| && r.objectives[j].id == f.params.objective
          ensures BreachTicks(r, ss, r.objectives[j], n) == BreachTicks(r, ss, r.objectives[i], n)
        {
          BreachesCounted(r, ss, n, j);
        }
      } else {
        NoOthers(r, ss, n, f.params.objective);
      }
    }
  }

  lemma FreshTold(r: Rules, ss: seq<Snapshot>)
    requires RulesOk(r) && |ss| <= U64_MAX
    ensures Told(r, ss, 0)
  {
    var g := FreshGoals(r);
    forall i | 0 <= i < |r.failures| ensures FailureOf(g, r.failures[i].id) == FailureState(0, None) {
      assert r.failures[i] in r.failures;
    }
    forall i | 0 <= i < |r.victories| ensures VictoryOf(g, r.victories[i].id) == None {
      assert r.victories[i] in r.victories;
    }
  }

  lemma FailureJudged(r: Rules, ss: seq<Snapshot>, n: nat, i: nat)
    requires RulesOk(r) && 0 < n <= |ss| <= U64_MAX && i < |r.failures|
    ensures var f := r.failures[i]; var was := FailureOf(JudgedAt(r, ss, n - 1), f.id);
      var streak := if BreachedOn(r, ss, f, n) then SatAdd(was.streak, 1) else 0;
      FailureOf(JudgedAt(r, ss, n), f.id) == FailureState(streak, if was.firedAt.None? && streak > Grace(f.params) then Some(n) else was.firedAt)
  {
    hide Judge, Breaches, BreachedOn, JudgeObjectives, Settled, RulesOk, VictoryOf, FailureOf;
    JudgeParts(r, JudgedAt(r, ss, n - 1), ss[n - 1], n);
    BreachIsTold(r, ss, r.failures[i], n);
  }

  lemma FailureTold(r: Rules, ss: seq<Snapshot>, n: nat, i: nat)
    requires RulesOk(r) && 0 < n <= |ss| <= U64_MAX && i < |r.failures| && Told(r, ss, n - 1)
    ensures var f := r.failures[i]; var g := JudgedAt(r, ss, n);
      FailureOf(g, f.id).streak == Streak(r, ss, f, n) && (FailureOf(g, f.id).firedAt.Some? <==> FiredBy(r, ss, f, n))
  {
    hide JudgedAt, BreachedOn, RulesOk, FailureOf, VictoryOf;
    FailureJudged(r, ss, n, i);
    StreakBounded(r, ss, r.failures[i], n - 1);
    var was := FailureOf(JudgedAt(r, ss, n - 1), r.failures[i].id);
    assert was.streak == Streak(r, ss, r.failures[i], n - 1) && (was.firedAt.Some? <==> FiredBy(r, ss, r.failures[i], n - 1));
  }

  lemma TellStep(r: Rules, ss: seq<Snapshot>, n: nat)
    requires RulesOk(r) && 0 < n <= |ss| <= U64_MAX && Told(r, ss, n - 1)
    ensures Told(r, ss, n)
  {
    hide JudgedAt, Streak, FiredBy, RulesOk, FailureOf, VictoryOf;
    forall i | 0 <= i < |r.failures|
      ensures var f := r.failures[i]; var g := JudgedAt(r, ss, n);
        FailureOf(g, f.id).streak == Streak(r, ss, f, n) && (FailureOf(g, f.id).firedAt.Some? <==> FiredBy(r, ss, f, n))
    {
      FailureTold(r, ss, n, i);
    }
    forall i | 0 <= i < |r.victories|
      ensures VictoryOf(JudgedAt(r, ss, n), r.victories[i].id).Some? <==> n >= r.victories[i].atTick
    {
      VictoryTold(r, ss, n, i);
    }
  }

  lemma {:induction false} JudgedTold(r: Rules, ss: seq<Snapshot>, n: nat)
    requires RulesOk(r) && n <= |ss| <= U64_MAX
    ensures Told(r, ss, n)
  {
    hide *;
    if n == 0 {
      FreshTold(r, ss);
    } else {
      JudgedTold(r, ss, n - 1);
      TellStep(r, ss, n);
    }
  }

  lemma VictoryTold(r: Rules, ss: seq<Snapshot>, n: nat, i: nat)
    requires RulesOk(r) && 0 < n <= |ss| <= U64_MAX && i < |r.victories| && Told(r, ss, n - 1)
    ensures VictoryOf(JudgedAt(r, ss, n), r.victories[i].id).Some? <==> n >= r.victories[i].atTick
  {
    hide Judge, Breaches, JudgeObjectives, FirstFired, AllMet, Settled, Streak, FiredBy;
    JudgeParts(r, JudgedAt(r, ss, n - 1), ss[n - 1], n);
  }

  lemma {:induction false} FiredIsFailing(r: Rules, ss: seq<Snapshot>, fs: seq<Failure>, n: nat, g: GoalState)
    requires 0 < n <= |ss| <= U64_MAX
    requires forall i :: 0 <= i < |fs| ==> (FailureOf(g, fs[i].id).firedAt.Some? <==> Fails(r, ss, fs[i], n))
    ensures FirstFired(fs, g) == LowestFailing(r, ss, fs, n)
  {
    if fs != [] { FiredIsFailing(r, ss, fs[1..], n, g); }
  }

  lemma {:induction false} NoneFailing(r: Rules, ss: seq<Snapshot>, fs: seq<Failure>, n: nat, i: nat)
    requires n <= |ss| <= U64_MAX && i < |fs| && LowestFailing(r, ss, fs, n).None?
    ensures !Fails(r, ss, fs[i], n)
  {
    if i > 0 { NoneFailing(r, ss, fs[1..], n, i - 1); }
  }

  lemma {:induction false} NoneFired(r: Rules, ss: seq<Snapshot>, n: nat, i: nat)
    requires n <= |ss| <= U64_MAX && i < |r.failures|
    requires forall k :: 1 <= k <= n ==> LowestFailing(r, ss, r.failures, k).None?
    ensures !FiredBy(r, ss, r.failures[i], n)
  {
    if n > 0 {
      NoneFired(r, ss, n - 1, i);
      NoneFailing(r, ss, r.failures, n, i);
    }
  }

  /** While nothing has failed, the first condition fired by tick n is the lowest one failing on it. */
  lemma FiredFirst(r: Rules, ss: seq<Snapshot>, n: nat)
    requires RulesOk(r) && 0 < n <= |ss| <= U64_MAX
    requires forall k :: 1 <= k <= n - 1 ==> LowestFailing(r, ss, r.failures, k).None?
    ensures FirstFired(r.failures, JudgedAt(r, ss, n)) == LowestFailing(r, ss, r.failures, n)
    ensures AllMet(r.victories, JudgedAt(r, ss, n)) <==> r.victories == [] || LastVictory(r.victories) <= n
  {
    JudgedTold(r, ss, n);
    hide Judge, Fails, JudgedAt, Streak, FirstFired, LowestFailing;
    var g := JudgedAt(r, ss, n);
    forall i | 0 <= i < |r.failures| ensures FailureOf(g, r.failures[i].id).firedAt.Some? <==> Fails(r, ss, r.failures[i], n) {
      NoneFired(r, ss, n - 1, i);
    }
    FiredIsFailing(r, ss, r.failures, n, g);
  }

  /** The first tick that settles a judged run settles it the way the predicates say. */
  lemma SettlesAs(r: Rules, ss: seq<Snapshot>, n: nat)
    requires RulesOk(r) && 0 < n <= |ss| <= U64_MAX && OutcomeOf(r, ss, n - 1).InProgress?
    ensures JudgedAt(r, ss, n).outcome == OutcomeOf(r, ss, n)
  {
    hide JudgedAt, LowestFailing, FirstFired, LastVictory, AllMet;
    FiredFirst(r, ss, n);
    JudgedSettled(r, ss, n);
  }

  lemma JudgedSettled(r: Rules, ss: seq<Snapshot>, n: nat)
    requires RulesOk(r) && 0 < n <= |ss| <= U64_MAX
    ensures JudgedAt(r, ss, n).outcome == Settled(r, JudgedAt(r, ss, n))
  {
    JudgeParts(r, JudgedAt(r, ss, n - 1), ss[n - 1], n);
  }

  /**
   * After any tick n of any run the outcome is: Lost, for the lowest condition failing on the first tick f on
   * which any condition had been breached for more than its grace, when f is no later than the last victory
   * tick T (or there is no victory); Won from T on when no condition failed by T; in progress otherwise.
   */
  lemma {:induction false} OutcomeIsHistory(r: Rules, ss: seq<Snapshot>, n: nat)
    requires RulesOk(r) && n <= |ss| <= U64_MAX
    ensures GoalsAt(r, ss, n).outcome == OutcomeOf(r, ss, n)
    ensures OutcomeOf(r, ss, n).InProgress? ==> GoalsAt(r, ss, n) == JudgedAt(r, ss, n)
  {
    hide Judge, FreshGoals, LowestFailing;
    if n == 0 {
      StartsOpen(r, ss);
    } else {
      OutcomeIsHistory(r, ss, n - 1);
      if OutcomeOf(r, ss, n - 1).InProgress? {
        SettlesAs(r, ss, n);
      } else {
        OutcomeStays(r, ss, n - 1, n);
      }
    }
  }

  lemma StartsOpen(r: Rules, ss: seq<Snapshot>)
    requires RulesOk(r) && |ss| <= U64_MAX
    ensures OutcomeOf(r, ss, 0).InProgress? && FreshGoals(r).outcome.InProgress?
  {
  }

  lemma {:induction false} OutcomeStays(r: Rules, ss: seq<Snapshot>, m: nat, n: nat)
    requires m <= n <= |ss| <= U64_MAX && !OutcomeOf(r, ss, m).InProgress?
    ensures OutcomeOf(r, ss, n) == OutcomeOf(r, ss, m)
    decreases n
  {
    hide LowestFailing, LastVictory;
    if m < n { OutcomeStays(r, ss, m, n - 1); }
  }

  // ---- Nothing moves after the end, and the end is announced once ----

  lemma {:induction false} Frozen(r: Rules, ss: seq<Snapshot>, m: nat, n: nat)
    requires m <= n <= |ss| <= U64_MAX && !GoalsAt(r, ss, m).outcome.InProgress?
    ensures GoalsAt(r, ss, n) == GoalsAt(r, ss, m)
    decreases n
  {
    if m < n { Frozen(r, ss, m, n - 1); }
  }

  function Announcements(es: seq<GoalEvent>): nat {
    if es == [] then 0 else Announcements(es[..|es| - 1]) + if es[|es| - 1].OutcomeChanged? then 1 else 0
  }

  lemma {:induction false} Quiet(es: seq<GoalEvent>, more: seq<GoalEvent>)
    requires forall e :: e in more ==> !e.OutcomeChanged?
    ensures Announcements(es + more) == Announcements(es)
  {
    if more == [] {
      assert es + more == es;
    } else {
      assert (es + more)[..|es + more| - 1] == es + more[..|more| - 1];
      Quiet(es, more[..|more| - 1]);
    }
  }

  lemma ObjectiveQuiet(r: Rules, o: Objective, g: GoalState, s: Snapshot, now: u64)
    ensures Announcements(JudgeObjective(r, o, g, s, now).events) == Announcements(g.events)
  {
    hide Evaluate, Announcements;
    var was, status := ObjectiveOf(g, o.id), Evaluate(r, o, s, now);
    var muted := if o.params.UnsupportedObjective? && o.id !in g.warned then [NotSupported(o.id, now)] else [];
    var changed := if was.status != status then [ObjectiveChanged(o.id, was.status, status, now)] else [];
    Quiet(g.events, muted);
    Quiet(g.events + muted, changed);
  }

  lemma {:induction false} ObjectivesQuiet(r: Rules, k: nat, g: GoalState, s: Snapshot, now: u64)
    requires k <= |r.objectives|
    ensures Announcements(JudgeObjectives(r, k, g, s, now).events) == Announcements(g.events)
  {
    hide JudgeObjective, Announcements;
    if k > 0 {
      ObjectivesQuiet(r, k - 1, g, s, now);
      ObjectiveQuiet(r, r.objectives[k - 1], JudgeObjectives(r, k - 1, g, s, now), s, now);
    }
  }

  lemma {:induction false} FailuresQuiet(r: Rules, k: nat, g: GoalState, s: Snapshot, now: u64)
    requires k <= |r.failures|
    ensures Announcements(JudgeFailures(r, k, g, s, now).events) == Announcements(g.events)
  {
    if k > 0 {
      FailuresQuiet(r, k - 1, g, s, now);
      Quiet(JudgeFailures(r, k - 1, g, s, now).events, [FailureFired(r.failures[k - 1].id, now)]);
    }
  }

  lemma {:induction false} VictoriesQuiet(r: Rules, k: nat, g: GoalState, now: u64)
    requires k <= |r.victories|
    ensures Announcements(JudgeVictories(r, k, g, now).events) == Announcements(g.events)
  {
    if k > 0 {
      VictoriesQuiet(r, k - 1, g, now);
      Quiet(JudgeVictories(r, k - 1, g, now).events, [VictoryMet(r.victories[k - 1].id, now)]);
    }
  }

  lemma JudgeAnnounces(r: Rules, g: GoalState, s: Snapshot, now: u64)
    ensures var g' := Judge(r, g, s, now);
      Announcements(g'.events) == Announcements(g.events) + if g'.outcome == g.outcome then 0 else 1
  {
    var g1 := JudgeObjectives(r, |r.objectives|, g, s, now);
    var g2 := JudgeFailures(r, |r.failures|, g1, s, now);
    var g3 := JudgeVictories(r, |r.victories|, g2, now);
    ObjectivesOnly(r, |r.objectives|, g, s, now);
    FailuresFrame(r, |r.failures|, g1, s, now);
    VictoriesFrame(r, |r.victories|, g2, now);
    ObjectivesQuiet(r, |r.objectives|, g, s, now);
    FailuresQuiet(r, |r.failures|, g1, s, now);
    VictoriesQuiet(r, |r.victories|, g2, now);
    hide JudgeObjectives, JudgeFailures, JudgeVictories, PhaseOf, Settled;
    var outcome := Settled(r, g3);
    assert (g3.events + [OutcomeChanged(outcome, now)])[..|g3.events|] == g3.events;
  }

  /** Over a whole run the outcome is announced exactly once if there is one, and never otherwise. */
  lemma {:induction false} AnnouncedOnce(r: Rules, ss: seq<Snapshot>, n: nat)
    requires n <= |ss| <= U64_MAX
    ensures Announcements(GoalsAt(r, ss, n).events) == if GoalsAt(r, ss, n).outcome.InProgress? then 0 else 1
  {
    hide Judge;
    if n > 0 {
      AnnouncedOnce(r, ss, n - 1);
      JudgeAnnounces(r, GoalsAt(r, ss, n - 1), ss[n - 1], n);
    }
  }
}
