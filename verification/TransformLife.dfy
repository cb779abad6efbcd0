/** One transform on its own: how long an instance can stay open, whatever its surroundings do. */
module TransformLife {
  import opened Base
  import opened Sl1Scene
  import opened Plants

  predicate Waiting(st: TState) { st.Starved? || st.Blocked? }

  /** The tick whose cadence slot opened the instance in flight. */
  function OpenedAt(def: Transform, st: TState): int
    requires !st.Idle?
  {
    if st.Running? && st.attempt >= 2 then st.startedAt - def.deadline - st.attempt else st.scheduledAt
  }

  /** By this tick every instance opened at `start` is over. */
  function Horizon(def: Transform, start: int): int {
    start + def.deadline + def.maxAttempts + def.duration
  }

  /** What the state of an instance says after tick `now`. */
  ghost predicate PhaseOk(def: Transform, st: TState, now: nat) {
    match st
    case Idle => true
    case Starved(at, since, attempts) => 1 <= at == since <= now <= at + def.deadline && attempts == 1
    case Blocked(at, since, attempts) => 1 <= at == since <= now <= at + def.deadline && attempts == 1
    case Running(at, started, attempt) =>
      && started <= now < started + def.duration
      && ((attempt == 1 && 1 <= at <= started && now <= at + def.deadline)
          || (2 <= attempt <= def.maxAttempts && def.policy.RetryThenWarn? && at == started > def.deadline + attempt))
    case Late(at, attempt, since) =>
      && def.policy.RetryThenWarn?
      && 1 <= at && since == at + def.deadline + 1 <= now
      && attempt == 2 + (now - since) <= def.maxAttempts
  }

  lemma PhaseWithinHorizon(def: Transform, st: TState, now: nat)
    requires TransformOk(def) && PhaseOk(def, st, now) && !st.Idle?
    ensures 1 <= OpenedAt(def, st) <= now < Horizon(def, OpenedAt(def, st))
  {
  }

  predicate Warns(m: Move, kind: WarningKind) {
    (|m.warnings| > 0 && m.warnings[0].kind == kind) || (|m.warnings| > 1 && m.warnings[1].kind == kind)
  }

  predicate Ends(m: Move) { m.effect.Deliver? || Warns(m, FailedWarning) }

  /**
   * Advancing an instance either ends it, by exactly one of a delivery or a failure, or leaves it the same
   * instance; it turns late only on the tick after its deadline; and what it delivers comes exactly `duration`
   * ticks after it started and within the deadline of its schedule.
   */
  lemma AdvanceOnce(def: Transform, st: TState, r: StartResult, now: u64)
    requires TransformOk(def) && 0 < now < U64_MAX && PhaseOk(def, st, now - 1)
    ensures var m := Advance(def, st, r, now);
      && PhaseOk(def, m.next, now)
      && !Warns(m, SlotMissed)
      && (st.Idle? ==> m == Move(Idle, Nothing, []))
      && (!st.Idle? ==>
            && (m.next.Idle? <==> Ends(m))
            && !(m.effect.Deliver? && Warns(m, FailedWarning))
            && (!m.next.Idle? ==> OpenedAt(def, m.next) == OpenedAt(def, st))
            && (Warns(m, LateWarning) ==> now == OpenedAt(def, st) + def.deadline + 1))
      && (m.effect.Deliver? ==> st.Running? && now == st.startedAt + def.duration <= st.scheduledAt + def.deadline)
      && (m.effect.GiveBack? ==> st.Running? && st.attempt == 1)
  {
  }

  /** The instance in flight has passed its deadline once already. */
  predicate GoneLate(st: TState) { st.Late? || (st.Running? && st.attempt >= 2) }

  function Count(b: bool): nat { if b then 1 else 0 }

  /** An attempt in flight was started once, and leaves by a delivery or by giving back what it holds. */
  lemma StartsOnce(def: Transform, st: TState, r: StartResult, now: u64)
    ensures var m := Advance(def, st, r, now);
      Count(st.Running?) + Count(m.effect.Take?) == Count(m.next.Running?) + Count(m.effect.Deliver?) + Count(m.effect.GiveBack?)
    ensures var m := Trigger(def, st, r, now);
      Count(st.Running?) + Count(m.effect.Take?) == Count(m.next.Running?) + Count(m.effect.Deliver?) + Count(m.effect.GiveBack?)
  {
  }

  /** Only an instance that was not late yet is reported late, and it stays late until it ends. */
  lemma LateOnce(def: Transform, st: TState, r: StartResult, now: u64)
    requires TransformOk(def) && 0 < now < U64_MAX && PhaseOk(def, st, now - 1)
    ensures var m := Advance(def, st, r, now);
      && (Warns(m, LateWarning) ==> !GoneLate(st))
      && (!m.next.Idle? ==> (GoneLate(m.next) <==> GoneLate(st) || Warns(m, LateWarning)))
  {
  }

  lemma TriggerNotLate(def: Transform, st: TState, r: StartResult, now: u64)
    requires TransformOk(def)
    ensures var m := Trigger(def, st, r, now); GoneLate(m.next) <==> GoneLate(st)
  {
  }

  lemma TriggerOnce(def: Transform, st: TState, r: StartResult, now: u64)
    requires TransformOk(def) && 0 < now < U64_MAX && PhaseOk(def, st, now)
    ensures var m := Trigger(def, st, r, now);
      && PhaseOk(def, m.next, now)
      && !Ends(m) && !Warns(m, LateWarning) && !m.effect.GiveBack?
      && (!st.Idle? ==> m.next == st && m.effect.Nothing?)
      && (CadenceFires(def, now) <==> Warns(m, SlotMissed) || (st.Idle? && !m.next.Idle?))
      && !(Warns(m, SlotMissed) && st.Idle?)
      && (st.Idle? && !m.next.Idle? ==> OpenedAt(def, m.next) == now)
  {
  }

  /** Started from late, under a schedule of its own. */
  ghost predicate RetryRun(def: Transform, st: TState) {
    st.Running? && st.attempt >= 2 && st.scheduledAt == st.startedAt
  }

  /** A start made from late always delivers, exactly `duration` ticks on. */
  lemma RetryDelivers(def: Transform, st: TState, r: StartResult, now: u64)
    requires TransformOk(def) && 0 < now < U64_MAX && PhaseOk(def, st, now - 1) && RetryRun(def, st)
    ensures var m := Advance(def, st, r, now);
      if now == st.startedAt + def.duration then m == Move(Idle, Deliver, []) else m == Move(st, Nothing, [])
  {
  }
}
