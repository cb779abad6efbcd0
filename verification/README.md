# Simetro engine: verified model

A Dafny model of the two deterministic step machines at the heart of the Simetro engine, with the pieces they
stand on, and proofs about every run of them.

**The SL1 tick.** A scene declares places, things, transforms, demand, pressure, objectives, dashboards, agents and
milestones. One tick runs pressure, freshness ageing, transforms, demand, objectives, observability, agents and
milestones, in that order. The class `Sl1RuntimeState` has the fields of the runtime state, and its methods walk
the same loops as the code. Each method is proved against a function on values (`Next`, `WorldAt`), and the
theorems are about that function after any number of ticks: reservations are exact and within their limits, every
cadence slot and every unit of stock is accounted for, every instance ends in bounded time, backlogs are conserved,
pressure has a closed form, events replay to state. What a tick decides is also told from outside, without the
functions that decide it: the outcome, tags, dashboards, metrics and alerts from initial stock, deliveries and what is
running; a fulfilment from the stock of every need; a failure from the tick its instance was opened on; a rejection
from what the agent may do.

**The request/reply protocol.** `RequestLifecycle` and `AgentRuntime` send requests, take replies from an
environment that may delay, repeat, reorder or invent them, and retry what has lapsed. Runs are sequences of timed
steps, with a ledger of what was issued and how it ended. Proved: one ending at most per decision, no decision
lost, an ending within a computable time when each tick sweeps first, and exactly when the decision timeline
agrees with the lifecycle, at each step and over runs; and which answer a reply gets, from the history alone.

**Beside them.** The scene loader (it accepts exactly the acceptable declarations, told of the raw record alone; what
it loads carries what was declared, and so does every run of it; neither depends on declaration order), author
actions on the graph (any sequence keeps it sound and adds only what was asked for; ids are the smallest unused), and
the agent log (every row accounted for; truncation at a UTF-8 boundary, section 3 of RFC 3629).

## Main results

| about | theorems |
|---|---|
| reservations, stock, limits | `PlantRuns.PlantInvariant`, `Ledger.LedgerBalances`, `Inflows.SceneStock`, `Capacities.UnitsKeptExactly`, `Capacities.NeverOverfullExactly` |
| transform instances | `TransformRuns.SlotsConserved`, `Turns.TurnTold`, `Turns.WarningsTold`, `Turns.FailuresExact`, `Turns.NeverLostEarly`, `Turns.InstanceResolves`, `Deliveries.NothingLandsLate` |
| demand and pressure | `Pressures.PressureClosedForm`, `Demands.DemandInvariant`, `SceneTheorems.SceneSpawns`, `SceneTheorems.SceneFulfils` |
| outcome, phase, tags, boards | `SceneMeanings.SceneOutcomeTold`, `SceneMeanings.SceneBreaches`, `GoalLogs.PhaseMeans`, `SceneMeanings.SceneTags`, `SceneMeanings.SceneDashboards`, `SceneMeanings.SceneAlerts`, `BoardRuns.EventsReplayToState` |
| agents and milestones | `AgentMeanings.AppliesExactly`, `AgentRuns.AppliedApart`, `AgentRuns.PausedExactly`, `SceneMeanings.SceneFires` |
| protocol | `ProtocolRuns.AtMostOneEnding`, `ProtocolRuns.ResolvedInTime`, `Memories.ReplyTold`, `Memories.SweepTold`, `Memories.RequestsFaithful`, `TimelineSync.TimelineInStepExactly` |
| loader | `Acceptance.AcceptedExactly`, `LoaderTheorems.OrderIndependent`, `LoaderTheorems.AcceptedScenesRun`, `DeclaredRuns.DeclaredSpawns`, `DeclaredRuns.DeclaredOutcome` |
| actions and log | `Authoring.AnyActionsKeepSound`, `Authoring.OnlyAsked`, `AgentLogs.RowsAccounted` |

## Layout

| files | contents |
|---|---|
| Base, Text, Order | saturating arithmetic, string order, sorted listings of maps and sets |
| Lifecycle, AgentRuntime | the two protocol classes and the functions they are proved against |
| Protocol, ProtocolRuns, Memories, TimelineSync | the ledger of a run, its safety and its deadlines, what a reply is told, the timeline beside it |
| Sl1Scene, Sl1State | the scene, the class `Sl1RuntimeState` and its initial state |
| Plants, TransformLife, Reservations, PlantRuns, PlantKeys, TransformRuns, Turns, Deliveries, Ledger, Capacities | transforms: one move, one instance, one turn, every run, and the capacities that keep them exact |
| Pressures, PressureRuns, Demands, Goals, GoalRuns, Boards, BoardRuns, Agents, AgentRuns, Milestones | the other stages and their runs |
| PressureEngine, TransformEngine, DemandEngine, GoalEngine, BoardEngine, AgentEngine, MilestoneEngine, TickEngine | the methods on `Sl1RuntimeState`, stage by stage, then the whole tick |
| Observations, Backlogs, GoalMeanings, GoalLogs, BoardMeanings, AgentMeanings | what each stage decides, told from outside it |
| Sl1Runs, SceneTheorems, SceneMeanings, Inflows | a run of the whole tick is a run of each stage; the theorems restated for a scene |
| Loading, Loader, LoaderEngine, LoaderTheorems, AcceptedEdges | the loader, and two accepted scenes on the edge of what the engine keeps |
| Declarations, Acceptance, DeclaredRuns | when a declaration is accepted, what is loaded of it, and what then happens |
| Authoring, AuthoringWorld, Utf8, AgentLogs | author actions, the agent log |

`dafny verify dfyconfig.toml` checks the whole project.

## Where code and documentation part

- `crates/engine/src/agent_runtime.rs:12-13` says that callers cannot drift the timeline and the lifecycle apart.
  A reply that arrives after its deadline but before the sweep does: the lifecycle retires the request while the
  timeline row stays pending, and the next give-up of that agent is filed under the wrong row
  (`TimelineSync.LateReplyMisfilesGiveUp`). `TimelineSync.AnswerSyncExactly` gives the exact condition for one reply
  and `TimelineSync.TimelineInStepExactly` for a run; sweeping first on every tick is enough
  (`TimelineSync.SweptFirstInStep`).
- `crates/engine/src/sl1_observability.rs:12` says that observability runs last; agents and milestones run after it
  (`crates/engine/src/sl1_runtime.rs:66-85`). The model follows the code.
- A memory of past ids with capacity 0 still keeps one id (`crates/engine/src/lifecycle.rs:443-448`), and a log ring
  of capacity 0 keeps one line and counts one drop too many (`crates/engine/src/agent_log.rs:653-659`). Both are
  modelled; safety of the protocol does not depend on the capacities.
- Injection looks at stock only, not at pending outputs (`crates/engine/src/sl1_pressure.rs:248-253`). Over all scenes
  with given capacities, stock plus pending output stays within a slot's capacity on every run if and only if the
  slot is not both one that a `source_multiplier` names and one that a transform delivers to
  (`Capacities.NeverOverfullExactly`); where it is both, twice the capacity is the bound (`PlantRuns.PlantInvariant`).
  `AcceptedEdges.FloodOverfills` is an accepted scene that overfills its slot, and `Capacities.InjectionFitsExactly`
  says of one injection exactly when it leaves room.
- Storage capacities are not bounded by the loader. At the top of the 64-bit range the room check saturates and a
  delivery loses units: `AcceptedEdges.TopCapacityLosesUnits` is an accepted scene that does. Over all scenes with
  given capacities, stock is exact on every run if and only if each slot that is delivered to has a capacity below
  2^64 - 1 and, where pressure pours too, leaves room above it for what can be on its way
  (`Capacities.UnitsKeptExactly`). The limits and the ledger are proved under that condition.

## Model

| member | source | states |
|---|---|---|
| Lifecycle.RequestLifecycle.constructor | crates/engine/src/lifecycle.rs:249-264 | no request pending, both memories empty, with the given capacities |
| Lifecycle.RequestLifecycle.HasPendingForAgent | crates/engine/src/lifecycle.rs:270-272 | true exactly when some pending request belongs to the agent |
| Lifecycle.RequestLifecycle.TryEnqueue | crates/engine/src/lifecycle.rs:291-311 | backpressure and no change when the agent has a request pending; otherwise the request is pending with its absolute, saturating deadline |
| Lifecycle.RequestLifecycle.DrainReply | crates/engine/src/lifecycle.rs:324-382 | the state and the answer are those of `DrainIn`, whose answers Memories.ReplyTold tells from the history; only a late or an applied reply takes its request out of play |
| Lifecycle.RequestLifecycle.ExpireOverdue | crates/engine/src/lifecycle.rs:388-440 | all overdue requests leave together, in agent order, each to be retried or given up by its attempt |
| Lifecycle.RequestLifecycle.RetireListed | crates/engine/src/lifecycle.rs:406-438 | the loop over a listed set of overdue requests retires exactly those and reports each as it was |
| Lifecycle.OverdueListed | crates/engine/src/lifecycle.rs:388-405 | the overdue requests have one agent-ordered listing, whatever order the hash map yields them in |
| Lifecycle.RetireRemoves | crates/engine/src/lifecycle.rs:406-440 | retiring distinct pending ids removes exactly those, whatever the memories do |
| Lifecycle.ExpireKeepsOnePerAgent | crates/engine/src/lifecycle.rs:388-440 | a sweep leaves at most one pending request per agent |
| AgentRuntimes.AgentRuntime.constructor | crates/engine/src/agent_runtime.rs:105-116 | empty outbox, empty timeline, empty lifecycle |
| AgentRuntimes.AgentRuntime.Enqueue | crates/engine/src/agent_runtime.rs:139-189 | allocates a timeline id, enqueues attempt 0 and puts it in the outbox; with a request pending for the agent nothing changes, so the second backpressure branch is dead |
| AgentRuntimes.AgentRuntime.DrainOutbox | crates/engine/src/agent_runtime.rs:194-196 | hands out the outbox in order and empties it, changing nothing else |
| AgentRuntimes.AgentRuntime.Reply | crates/engine/src/agent_runtime.rs:200-243 | the lifecycle decides; an applied reply is recorded in the timeline, the others leave it alone |
| AgentRuntimes.AgentRuntime.Expire | crates/engine/src/agent_runtime.rs:249-320 | every lapsed request is settled in agent order: reissued with the next attempt or given up |
| AgentRuntimes.AgentRuntime.SettleOne | crates/engine/src/agent_runtime.rs:249-320 | one lapsed request: expiry and reissue recorded, or the give-up filed under the first open row of its agent |
| Protocol.LedgerAsk | crates/engine/src/agent_runtime.rs:139-189 | asking adds exactly one live request, the newest of a new decision |
| Protocol.LedgerEnd | crates/engine/src/lifecycle.rs:347-382 | taking a live request out of play is the one ending of its decision |
| Protocol.LedgerReissue | crates/engine/src/lifecycle.rs:406-438 | a retry replaces a live request by the next attempt of the same decision |
| Protocol.ReissueUnopposed | crates/engine/src/agent_runtime.rs:249-295 | a request just expired finds its agent free: the backpressure branch of the sweep is unreachable |
| Protocol.AskKeeps | crates/engine/src/agent_runtime.rs:139-189 | asking keeps the ledger, the entries and the memories consistent |
| Protocol.AnswerKeeps | crates/engine/src/agent_runtime.rs:200-243 | so does any reply, known, repeated, late or invented |
| Protocol.SweepKeeps | crates/engine/src/agent_runtime.rs:249-320 | so does a sweep of any number of overdue requests |
| ProtocolRuns.NextKeeps | crates/engine/src/agent_runtime.rs:139-320 | every step keeps the protocol invariant, among it one pending request per agent |
| ProtocolRuns.AtMostOneEnding | crates/engine/src/lifecycle.rs:291-440 | over every run, whatever the environment, the clock and the ring sizes: at most one ending per decision, so no reply applied twice and none both applied and given up; an applied reply came within the deadline of its issue |
| ProtocolRuns.NoDecisionLost | crates/engine/src/lifecycle.rs:291-440 | each decision issued has ended exactly once or is awaited by exactly one live request |
| ProtocolRuns.AppliedExactlyWhenDue | crates/engine/src/lifecycle.rs:324-382 | a reply is applied if and only if its request is pending and not past its deadline; the memories of past ids never swallow one |
| ProtocolRuns.SweepPrompt | crates/engine/src/lifecycle.rs:388-440 | a sweep leaves nothing overdue, and retries what had lapsed exactly one tick past its deadline |
| ProtocolRuns.StepPrompt | crates/engine/src/lifecycle.rs:388-440 | within a tick that swept first, no step leaves a request overdue |
| ProtocolRuns.ResolvedInTime | crates/engine/src/lifecycle.rs:388-440 | when every tick sweeps first, a decision issued at e with window d ends in exactly one apply or give-up by e + 3 (d + 1), and no attempt exceeds the last |
| Memories.RunRemembers | crates/engine/src/lifecycle.rs:324-448 | over every run of a new runtime: pending are exactly the awaited ids, and each memory holds exactly the last ids applied, or expired and retired late, as many as its capacity and at least one |
| Memories.ReplyTold | crates/engine/src/lifecycle.rs:324-382 | after any run, from the history alone: duplicate iff among the last max(1, completed_cap) applied; stale iff among the last max(1, expired_cap) expired or retired late, or awaited past its deadline; applied, with its own agent, choice and rationale, iff awaited and in time; unknown iff none of these, as when it was never issued; only an awaited id changes anything |
| Memories.SweepTold | crates/engine/src/lifecycle.rs:388-440 | after any run, from the history alone, a sweep reports in agent order exactly the requests awaited past their window: reissued with its lag below the last attempt, given up at it |
| Memories.AskTold | crates/engine/src/agent_runtime.rs:139-189 | an agent is refused exactly while a request of its own is awaited, and otherwise gets the next timeline id |
| Memories.RequestsFaithful | crates/engine/src/agent_runtime.rs:139-320 | over every run the requests handed out, then those in the outbox, are the issued ones in order; each carries the observation and window its decision was asked with; only the last attempt is ever given up |
| TimelineSync.AllocateWindowed | crates/protocol/src/decision_timeline.rs:223-242 | the timeline holds the latest decisions, with consecutive ids |
| TimelineSync.RetainedExactly | crates/protocol/src/decision_timeline.rs:265-272 | an id is retained exactly while fewer than the capacity have followed it |
| TimelineSync.GiveUpNamesItsOwn | crates/engine/src/agent_runtime.rs:335-352 | in a true timeline the first open row of the agent is the decision being given up, unless the window has moved past it |
| TimelineSync.AnswerSyncExactly | crates/engine/src/agent_runtime.rs:200-243 | a reply keeps timeline and lifecycle in step if and only if it does not retire, past its deadline, a decision still retained |
| TimelineSync.FairExactly | crates/engine/src/agent_runtime.rs:200-366 | a timeline that is true but for rows late replies have left pending is true if and only if those rows have left the window |
| TimelineSync.SweepSync | crates/engine/src/agent_runtime.rs:249-320 | a sweep keeps them in step |
| TimelineSync.TimelineInStep | crates/engine/src/agent_runtime.rs:139-320 | over every run in which no reply retires a decision late, every retained row is true: pending iff awaited, otherwise applied or given up as it happened, each give-up under its own id |
| TimelineSync.TimelineInStepExactly | crates/engine/src/agent_runtime.rs:139-366 | over every run, the retained rows are all true and each give-up filed under its own decision, if and only if no give-up was filed under another and every decision retired late has left the window |
| TimelineSync.SweptFirstInStep | crates/engine/src/agent_runtime.rs:139-320 | sweeping first on every tick is enough for that |
| TimelineSync.LateReplyMisfilesGiveUp | crates/engine/src/agent_runtime.rs:12-13 | a six-step run in which a late reply leaves row 1 pending for ever and the give-up of decision 2 is filed under it |
| Order.Collect | crates/engine/src/lifecycle.rs:395-405 | collecting a hashed set and sorting gives the one sorted listing |
| Order.SortedUnique | crates/engine/src/scenario_language_v1.rs:4251-4628 | a strictly sorted list is determined by its members |
| TransformEngine.AgeFreshness | crates/engine/src/sl1_runtime.rs:88-106 | every timestamped entry older than its thing's budget is stale, the rest as they were |
| TransformEngine.ThingBudgets | crates/engine/src/sl1_runtime.rs:108-114 | the budget of each thing, by id |
| TransformEngine.PlaceCaps | crates/engine/src/sl1_runtime.rs:116-134 | storage and base capacities, by place and name |
| TransformEngine.Probe | crates/engine/src/sl1_runtime.rs:508-565 | an attempt starves on a short input, is blocked on capacity under the current quota or on output room, and otherwise starts, in that order |
| TransformEngine.TryStart | crates/engine/src/sl1_runtime.rs:508-587 | a refused attempt changes nothing; an accepted one consumes inputs and reserves capacity and outputs |
| TransformEngine.ReleaseCapacity | crates/engine/src/sl1_runtime.rs:589-600 | gives back exactly the reserved capacity |
| TransformEngine.ReleasePendingOutputs | crates/engine/src/sl1_runtime.rs:607-620 | gives back exactly the reserved output room and forgets emptied entries |
| TransformEngine.Produce | crates/engine/src/sl1_runtime.rs:294-307 | adds each output to stock and stamps it fresh |
| TransformEngine.HandleFailurePolicy | crates/engine/src/sl1_runtime.rs:622-660 | drop reports the failure and ends the instance; retry does so once its attempts are used up and otherwise goes late with the next attempt; on runs, Turns.FailuresExact and Turns.NeverLostEarly say when |
| TransformEngine.AdvanceRunning | crates/engine/src/sl1_runtime.rs:264-318 | an instance past its deadline on attempt 1 gives back what it holds and fails over; otherwise it delivers when its duration is up |
| TransformEngine.AdvanceWaitingState | crates/engine/src/sl1_runtime.rs:321-360 | a waiting instance past its deadline fails over; otherwise it tries to start |
| TransformEngine.AdvanceLate | crates/engine/src/sl1_runtime.rs:363-428 | a late instance retries under a new schedule until its attempts run out |
| TransformEngine.StartAttempt | crates/engine/src/sl1_runtime.rs:431-500 | a cadence slot opens an instance that runs, starves or is blocked |
| TransformEngine.ProcessOneTransform | crates/engine/src/sl1_runtime.rs:160-261 | the instance in flight moves first, then the slot is opened or missed; messages are exactly those of the two moves |
| TransformEngine.RunTransforms | crates/engine/src/sl1_runtime.rs:116-157 | all transforms in id order; every stored state is found in the scene |
| TransformEngine.StatesInOrder | crates/engine/src/sl1_runtime.rs:136-157 | walking the stored states in key order meets the transforms in scene order |
| Plants.AdjustedAt | crates/engine/src/sl1_runtime.rs:567-600 | each key of a stock or reservation map changes by the amount listed for it and no other changes |
| Plants.StampedAt | crates/engine/src/sl1_runtime.rs:300-307 | exactly the listed outputs are stamped with the tick |
| TransformLife.AdvanceOnce | crates/engine/src/sl1_runtime.rs:264-428 | an instance ends by exactly one of a delivery or a failure, or stays the same instance; late is reported only on the tick after the deadline; a delivery comes `duration` after its start and within its deadline |
| TransformLife.TriggerOnce | crates/engine/src/sl1_runtime.rs:232-261 | a cadence slot opens an instance or reports a missed slot, never both, and never disturbs the one in flight |
| TransformLife.LateOnce | crates/engine/src/sl1_runtime.rs:622-660 | an instance is reported late at most once |
| TransformLife.StartsOnce | crates/engine/src/sl1_runtime.rs:264-500 | an attempt in flight was started once and leaves by delivering or by giving back what it holds |
| TransformLife.RetryDelivers | crates/engine/src/sl1_runtime.rs:363-428 | a start made from late delivers exactly `duration` ticks on |
| TransformLife.PhaseWithinHorizon | crates/engine/src/sl1_runtime.rs:264-428 | an open instance is before its opening + deadline + max_attempts + duration |
| Turns.TurnTaken | crates/engine/src/sl1_runtime.rs:160-261 | on every tick of every run each transform makes exactly its two moves, from the state it was left in and the stock the transforms before it have left |
| Turns.TryTold | crates/engine/src/sl1_runtime.rs:508-565 | an attempt cannot be fed iff some input exceeds its stock; fed, it cannot fit iff a cost exceeds what pressure leaves of a bucket or an output the room of a slot; otherwise it starts |
| Turns.TurnTold | crates/engine/src/sl1_runtime.rs:160-500 | on every tick of every run: a waiting instance within its deadline runs, starves or is blocked by what it lacks; a late one starts iff it lacks nothing; a slot that finds the transform idle opens an instance the same way |
| Turns.WarningsTold | crates/engine/src/sl1_runtime.rs:232-500 | on every tick of every run a transform warns of exactly this: late on the tick after its deadline, failed on the last of its patience, a slot missed, starved or blocked by what it lacks when opened |
| Turns.FailuresExact | crates/engine/src/sl1_runtime.rs:622-660 | over every run a transform that retries fails an instance opened at s exactly on s + deadline + max_attempts, naming attempt max_attempts; one that drops on s + deadline + 1, naming attempt 1 |
| Turns.NeverLostEarly | crates/engine/src/sl1_runtime.rs:363-428 | an instance not delivered is still open on every tick before that; past its deadline it is late, with the attempt that tick calls for, or runs after a late start |
| Reservations.RunningSumAt | crates/engine/src/sl1_runtime.rs:508-620 | changing one transform's state changes what is reserved by what that one holds |
| Reservations.StepUsed | crates/engine/src/sl1_runtime.rs:567-600 | used capacity stays the sum over running transforms |
| Reservations.StepPend | crates/engine/src/sl1_runtime.rs:567-620 | pending output stays the sum over running transforms |
| Reservations.StartedFits | crates/engine/src/sl1_runtime.rs:508-565 | an accepted start fits capacity, storage room and inputs |
| Reservations.SlotExact | crates/engine/src/sl1_runtime.rs:567-620 | in no slot does a subtraction truncate or an addition saturate |
| Reservations.StepExact | crates/engine/src/sl1_runtime.rs:160-261 | one move keeps every limit and moves stock by exact amounts |
| PlantRuns.InjectionExact | crates/engine/src/sl1_pressure.rs:234-253 | injection adds exactly the counted units, fills a slot at most to its capacity and touches no other slot |
| Inflows.InjectionFills | crates/engine/src/sl1_pressure.rs:234-253 | whatever the requests of a tick and their order, a slot takes their sum up to its capacity, or nothing if it is over it |
| PlantRuns.InjectionKeeps | crates/engine/src/sl1_pressure.rs:196-261 | injection keeps every limit, with stock plus pending up to twice the capacity in slots it names |
| PlantRuns.AgeTags | crates/engine/src/sl1_runtime.rs:88-106 | ageing one tick takes the closed form of the tags one tick on |
| PlantRuns.PlantProcessed | crates/engine/src/sl1_runtime.rs:160-261 | processing one transform keeps reservations, limits, ledger, tags and keys |
| PlantRuns.TickKeeps | crates/engine/src/sl1_runtime.rs:30-56 | a whole tick of the plant does |
| PlantRuns.PlantInvariant | crates/engine/src/sl1_runtime.rs:88-620 | after every tick of every run: used capacity and pending output equal the sums over running transforms; used within base whatever the quotas did; stock plus pending within storage, or, where pressure pours and transforms deliver, within storage plus what can be on its way, at most twice it; stock balances; a tag is stale iff now minus its last delivery exceeds its budget; the maps have exactly the declared keys |
| TransformRuns.SlotsConserved | crates/engine/src/sl1_runtime.rs:160-261 | over every run: now / cadence = deliveries + failures + missed slots + the open instance; starts = deliveries + aborts + running; the open instance was reported late once if it has gone late, otherwise never |
| Turns.InstanceResolves | crates/engine/src/sl1_runtime.rs:264-428 | an instance opened at s has delivered or failed by s + deadline + max_attempts + duration, whatever happens around it |
| Deliveries.NothingLandsLate | crates/engine/src/sl1_runtime.rs:282-311 | over every run each delivery comes from an instance running the tick before, exactly `duration` after its start and within schedule plus deadline |
| Deliveries.RetryCompletes | crates/engine/src/sl1_runtime.rs:363-428 | an instance running after a late start always delivers, on the tick `duration` after that start |
| PlantKeys.KeysKept | crates/engine/src/sl1_runtime.rs:88-620 | after every tick of every run, whatever the capacities, stock, tags, used capacity and states have exactly the declared keys, and nothing is under way to an undeclared slot |
| Capacities.RoomCheckExactly | crates/engine/src/sl1_runtime.rs:536-565 | the saturating room check decides the true sum exactly for capacities below 2^64 - 1 |
| Capacities.UnitsKeptExactly | crates/engine/src/sl1_runtime.rs:536-600 | over all scenes with given capacities, sources and bounds on what can be on its way: stock is exact on every run if and only if every capacity has room |
| Capacities.TooTightLoses | crates/engine/src/sl1_runtime.rs:282-311 | a capacity without room has a layout and a run of two ticks that loses units |
| Capacities.InjectionFitsExactly | crates/engine/src/sl1_pressure.rs:234-253 | one injection keeps stock plus pending within the capacity if and only if what it adds leaves what was on its way its room |
| Capacities.InRoomUnlessBoth | crates/engine/src/sl1_pressure.rs:196-261 | on every run, stock plus pending fits every slot that is not both a source slot and an output slot |
| Capacities.NeverOverfullExactly | crates/engine/src/sl1_pressure.rs:196-261 | over all scenes with given capacities that keep units: a slot is never overfull if and only if it is not both |
| Ledger.LedgerBalances | crates/engine/src/sl1_runtime.rs:282-311 | for every slot after every tick: stock = initial + injected + sum of deliveries times output amounts - sum of starts times input amounts |
| PressureEngine.EndPressures | crates/engine/src/sl1_pressure.rs:70-106 | pressures whose window is over leave the active set and their carries are cleared |
| PressureEngine.BeginPressures | crates/engine/src/sl1_pressure.rs:108-141 | those whose window holds the tick become active, once |
| PressureEngine.RebuildOverlays | crates/engine/src/sl1_pressure.rs:157-194 | overlays are rebuilt from the active pressures alone |
| PressureEngine.ApplySourceInjection | crates/engine/src/sl1_pressure.rs:196-261 | each live source gains its rate and pours its whole units up to the room there is, keeping the fraction |
| PressureEngine.RunPressure | crates/engine/src/sl1_pressure.rs:59-148 | one tick of pressure |
| Pressures.ActiveStep | crates/engine/src/sl1_pressure.rs:59-148 | the active set after a tick is exactly the windows that hold it |
| Pressures.CarryKept | crates/engine/src/sl1_pressure.rs:84-95 | deactivation clears exactly the carries of what it ends |
| Pressures.SourceCarries | crates/engine/src/sl1_pressure.rs:196-247 | after k active ticks at rate m the carry is k m mod 1000 |
| Pressures.OverlaySums | crates/engine/src/sl1_pressure.rs:157-194 | quota is min(100, sum), growth the saturating sum, outages the union over the active pressures |
| Pressures.PressureClosedForm | crates/engine/src/sl1_pressure.rs:59-261 | after every tick n: active iff at_tick <= n < end_tick (from tick 1); carries, overlays and requested units in closed form |
| Pressures.RequestedTotal | crates/engine/src/sl1_pressure.rs:234-247 | after k active ticks a source has asked for k m div 1000 units in all |
| PressureRuns.WindowsAnnounced | crates/engine/src/sl1_pressure.rs:59-141 | over every run a pressure is announced active once, on the first tick that sees its window, and over once, on its end tick; a window no tick sees is never announced |
| Pressures.CapacityAntitone | crates/engine/src/sl1_pressure.rs:280-295 | effective capacity is antitone in the quota, never above base, and the floor formula while base * 100 fits in 64 bits |
| Inflows.SceneStock | crates/engine/src/sl1_runtime.rs:42-56 | on every tick of every scene run, stock = what it was, filled by the windows and rates of the sources up to capacity, less the inputs of what starts, plus the outputs of what is delivered |
| DemandEngine.ShouldSpawnNow | crates/engine/src/sl1_runtime.rs:837-874 | answers the schedule and moves the stored cursor past every tick up to now |
| DemandEngine.SpawnInstances | crates/engine/src/sl1_runtime.rs:731-755 | spawns until enough are in or the backlog is full; a full backlog is reported once |
| DemandEngine.DropPastDeadline | crates/engine/src/sl1_runtime.rs:775-796 | drops from the front while the front is past its deadline |
| DemandEngine.RequirementsMet | crates/engine/src/sl1_runtime.rs:876-898 | true exactly when every need is in stock; SceneTheorems.SceneFulfils says so of the plant on every run |
| DemandEngine.OneDemand | crates/engine/src/sl1_runtime.rs:701-829 | pause, spawn, drop, fulfil, rearm, for one demand |
| DemandEngine.RunDemand | crates/engine/src/sl1_runtime.rs:701-829 | all demands in order, each on its own record; expired pauses are forgotten |
| Demands.DropExact | crates/engine/src/sl1_runtime.rs:775-807 | the front-only loop removes exactly the expired instances and reports each, in order |
| Demands.SpawnManyKeeps | crates/engine/src/sl1_runtime.rs:731-755 | spawning numbers instances consecutively and never exceeds the cap |
| Demands.DemandInvariant | crates/engine/src/sl1_runtime.rs:701-829 | on every run: next = fulfilled + dropped + |pending|, pending holds consecutive sequences in deadline order, nothing pending is expired, |pending| <= cap, overflow implies full |
| Demands.ScanAnswers | crates/engine/src/sl1_runtime.rs:837-874 | a cursor behind now answers exactly whether now is listed |
| Demands.CursorOnRun | crates/engine/src/sl1_runtime.rs:837-874 | on every run the stored cursor has passed exactly the ticks up to the last one it was asked about |
| Demands.AskedInTime | crates/engine/src/sl1_runtime.rs:837-874 | asked through its cursor, a schedule answers what it says of the tick, however often it was paused |
| Demands.SpawnsExactlyWhenDue | crates/engine/src/sl1_runtime.rs:701-771 | a demand spawns exactly when not paused and due: as many as wanted and as fit |
| Backlogs.TickTold | crates/engine/src/sl1_runtime.rs:701-829 | one tick: what is due is born with consecutive sequences as far as there is room; all past their deadline are dropped and reported in order; the oldest left is fulfilled iff the needs are in stock; overflow is reported on its edge |
| GoalEngine.EvaluateObjective | crates/engine/src/sl1_objectives.rs:70-129 | one objective is evaluated against the snapshot and stored; an unsupported one warns once |
| GoalEngine.StatusNow | crates/engine/src/sl1_objectives.rs:144-229 | the status of one objective |
| GoalEngine.IsBreached | crates/engine/src/sl1_objectives.rs:231-349 | whether one failure condition is breached on this tick, as GoalMeanings.BreachMeans tells from stock, deliveries and what is running |
| GoalEngine.EvaluateFailure | crates/engine/src/sl1_objectives.rs:231-277 | streak up or reset; fired, once, when it exceeds the grace |
| GoalEngine.EvaluateVictories | crates/engine/src/sl1_objectives.rs:351-373 | each victory condition is met from its tick on, once |
| GoalEngine.RecomputeOutcome | crates/engine/src/sl1_objectives.rs:375-423 | a fired failure decides before victories do; a change is announced |
| GoalEngine.RunGoals | crates/engine/src/sl1_objectives.rs:52-68 | one tick of objectives; nothing moves once the outcome is terminal |
| Goals.Floor | crates/engine/src/sl1_objectives.rs:309-312 | a floored percentage reaches 100 only when all is used |
| GoalRuns.JudgeParts | crates/engine/src/sl1_objectives.rs:52-68 | a judged tick acts on each condition by itself |
| GoalRuns.FailureTold | crates/engine/src/sl1_objectives.rs:231-277 | a stored streak is the length of the current breach; fired iff it has exceeded the grace on some tick |
| GoalRuns.BreachesCounted | crates/engine/src/sl1_objectives.rs:116-127 | the stored breach count of an objective is the number of ticks on which it was breached |
| GoalRuns.BreachIsTold | crates/engine/src/sl1_objectives.rs:231-277 | what the engine tests of a failure condition, on stored counts, is what the snapshots alone say |
| GoalRuns.OutcomeIsHistory | crates/engine/src/sl1_objectives.rs:375-423 | after any tick of any run, told from the snapshots alone: with f the first tick on which a condition had been breached for more than its grace and T the last victory tick, Lost for the lowest such condition when f <= T, Won from T when T < f, else in progress |
| GoalRuns.Frozen | crates/engine/src/sl1_objectives.rs:52-68 | after a terminal outcome nothing changes again |
| GoalRuns.AnnouncedOnce | crates/engine/src/sl1_objectives.rs:375-423 | the outcome is announced exactly once if there is one, and never otherwise |
| GoalMeanings.OlderMeans | crates/engine/src/sl1_objectives.rs:287-307 | a tag is older than a limit iff its slot had neither initial stock nor a delivery within that limit |
| GoalMeanings.PercentMeans | crates/engine/src/sl1_objectives.rs:309-312 | the floored use percentage of a bucket reaches a threshold iff threshold * capacity <= 100 * units the running transforms cost, cut off at 100 |
| GoalMeanings.EvaluateMeans | crates/engine/src/sl1_objectives.rs:144-229 | an objective of each supported kind is breached iff nothing was stocked or delivered within its limit, more demand was dropped than allowed, or too little or too much of the bucket is in use |
| GoalMeanings.MissesCounted | crates/engine/src/sl1_objectives.rs:116-127 | the stored count is the number of ticks on which it was missed in that sense |
| GoalMeanings.BreachMeans | crates/engine/src/sl1_objectives.rs:231-349 | a failure condition is breached iff its slot was neither stocked nor delivered to within the threshold, its bucket is used to the threshold, or its objective was missed more often than allowed |
| GoalMeanings.OutcomeTold | crates/engine/src/sl1_objectives.rs:375-423 | lost for a condition iff it is the lowest that first held for more than its grace, no later than the last victory tick; won iff that tick has come and nothing failed by then; all told from stock, deliveries and what is running |
| GoalLogs.ObjectivesTold | crates/engine/src/sl1_objectives.rs:70-129 | over every run the stored status, breach count and tick of last change of an objective, and its log of changes, are functions of the history; an unsupported one is warned of once, on tick 1 |
| GoalLogs.FailuresKnown | crates/engine/src/sl1_objectives.rs:231-277 | the stored streak and firing tick of a condition, and its log, are functions of the history: it fires once, on the first tick past its grace |
| GoalLogs.VictoriesKnown | crates/engine/src/sl1_objectives.rs:351-373 | a victory condition is met, and logged once, exactly on its own tick |
| GoalLogs.PhaseMeans | crates/engine/src/sl1_objectives.rs:425-475 | the phase of a game in progress: spiraling iff some condition holds, else losing iff some objective is missed, else winning iff there is one the engine supports, else stabilizing |
| Boards.FindFreshest | crates/engine/src/sl1_observability.rs:161-182 | the inner loop finds the least age of a thing over all places, if any has a timestamp |
| Boards.DashboardFreshness | crates/engine/src/sl1_observability.rs:151-188 | the two nested loops with their early exit compute the worst of those ages |
| Boards.StalenessMeans | crates/engine/src/sl1_observability.rs:151-188 | no reading iff some dependency has no timestamp anywhere; otherwise the least age within which every dependency was seen at some place |
| BoardMeanings.StatusMeans | crates/engine/src/sl1_observability.rs:190-202 | fresh iff every dependency was stocked or delivered somewhere within the limit; no data iff one never was; else lagging by the least limit within which all were |
| BoardMeanings.MeasureMeans | crates/engine/src/sl1_observability.rs:204-259 | a metric reads the floored share of a bucket that running transforms cost, the stock of a slot, or how far its dashboard lags |
| BoardMeanings.AlertMeans | crates/engine/src/sl1_observability.rs:82-131 | over every run an alert fires iff its metric has a reading above its threshold, below it or outside its range, as its test says, since the first tick of that spell |
| BoardMeanings.AnnouncementsTell | crates/engine/src/sl1_observability.rs:51-131 | every announcement tells an edge: of an alert, its own metric and the reading that set it off, on the first tick of a spell, or the first tick after one; of a dashboard, its old and new label and how far it lags |
| BoardEngine.ComputeDashboardState | crates/engine/src/sl1_observability.rs:190-202 | fresh, stale or no data by the threshold |
| BoardEngine.ComputeMetricState | crates/engine/src/sl1_observability.rs:204-259 | the reading of each metric source; every source it names exists |
| BoardEngine.UpdateDashboard | crates/engine/src/sl1_observability.rs:51-74 | stores the state and announces a change of label |
| BoardEngine.UpdateAlert | crates/engine/src/sl1_observability.rs:82-131 | fires and clears on the edges only |
| BoardEngine.RunBoards | crates/engine/src/sl1_observability.rs:43-132 | one tick of observability |
| BoardRuns.BoardHistory | crates/engine/src/sl1_observability.rs:51-74 | after tick n a dashboard shows its staleness on n and was announced at every change of label |
| BoardRuns.MetricHistory | crates/engine/src/sl1_observability.rs:76-80 | a metric holds what its source read on the last tick |
| BoardRuns.AlertHistory | crates/engine/src/sl1_observability.rs:82-131 | an alert fires exactly when its test holds of the reading on tick n, since the start of the current spell, announced at the edges |
| BoardRuns.EventsReplayToState | crates/engine/src/sl1_observability.rs:43-132 | the log of each alert and each dashboard replays, edge by edge, to the stored state; an alternation broken anywhere would not replay |
| AgentEngine.Validate | crates/engine/src/sl1_agents.rs:171-403 | the checks in the order they are made; the first that fails names the rejection |
| AgentEngine.DecideOne | crates/engine/src/sl1_agents.rs:171-338 | one agent: cadence, answer, validation, then application or rejection |
| AgentEngine.ApplyAction | crates/engine/src/sl1_agents.rs:405-436 | a throttle pauses its demand until now + pause + 1, never shortening a pause |
| AgentEngine.RunAgents | crates/engine/src/sl1_agents.rs:140-169 | all agents in id order |
| AgentRuns.FiresOnMultiples | crates/engine/src/sl1_agents.rs:319-338 | under consecutive ticks the stateful cadence fires exactly when the interval divides the tick |
| AgentRuns.AgentHistory | crates/engine/src/sl1_agents.rs:171-338 | after tick n the stored clock and cooldown are functions of the applied proposals, and the log is what the agent had to say on each tick |
| AgentRuns.AppliedApart | crates/engine/src/sl1_agents.rs:171-338 | two applied actions of one agent are at least max(interval, cooldown) apart |
| AgentRuns.AppliedIsLogged | crates/engine/src/sl1_agents.rs:171-317 | the log says applied on exactly the ticks an action was applied |
| AgentRuns.PausedExactly | crates/engine/src/sl1_agents.rs:405-436 | a demand is paused for tick m exactly when some applied throttle, by any agent, reaches m |
| AgentMeanings.AppliesExactly | crates/engine/src/sl1_agents.rs:171-317 | an agent applies an action on tick n iff its interval divides n, its cooldown is over, the demand exists and is in its scope, the kind is allowed, the cost within its budget and the pause in range |
| AgentMeanings.ProposalTold | crates/engine/src/sl1_agents.rs:171-317 | a proposal is either applied or rejected for the first of these that fails, and says so once |
| AgentMeanings.SilenceTold | crates/engine/src/sl1_agents.rs:171-317 | on other ticks, and when its backend proposes nothing, it applies nothing |
| Agents.PruneKeeps | crates/engine/src/sl1_runtime.rs:717-725 | forgetting expired pauses changes no answer from now on |
| MilestoneEngine.EvaluateMilestone | crates/engine/src/sl1_milestones.rs:49-98 | arms, tests and fires one milestone |
| MilestoneEngine.RunMilestones | crates/engine/src/sl1_milestones.rs:49-98 | all milestones in id order, each on its own record |
| Milestones.Reaches | crates/engine/src/sl1_milestones.rs:121-140 | the test of an unsigned reading against a signed threshold is integer comparison, also beyond the signed range |
| Milestones.FiresOnceFirst | crates/engine/src/sl1_milestones.rs:49-150 | on every run a milestone fires on its first qualifying tick, once, and is logged once |
| Milestones.ActiveInWindow | crates/engine/src/sl1_milestones.rs:109-150 | what a milestone sees active on tick k are the windows that hold k |
| Milestones.PressureMilestones | crates/engine/src/sl1_milestones.rs:109-150 | one on the end of a pressure fires at that end tick once any tick has seen it active; one on its start on the first tick that sees it |
| Sl1State.InitialStock | crates/engine/src/scenario_language_v1.rs:3949-3990 | initial stock, tags and empty capacity of every place |
| Sl1State.Sl1RuntimeState.FromScene | crates/engine/src/scenario_language_v1.rs:3949-4077 | the state of a scene before its first tick, keyed by exactly the declared ids |
| TickEngine.PlantPhase | crates/engine/src/sl1_runtime.rs:42-56 | pressure, ageing and transforms in order |
| TickEngine.DemandPhase | crates/engine/src/sl1_runtime.rs:57-61 | demand sees what was produced on the same tick |
| TickEngine.JudgePhase | crates/engine/src/sl1_runtime.rs:62-71 | objectives, then observability |
| TickEngine.ActPhase | crates/engine/src/sl1_runtime.rs:72-85 | agents, then milestones |
| TickEngine.RunTick | crates/engine/src/sl1_runtime.rs:30-86 | one tick takes the whole state where the step function says and leaves every map keyed by exactly the declared ids |
| TickEngine.Simulate | crates/engine/src/tick.rs:168-195 | loading a scene and ticking it reaches the state of the run; no lookup fails on the way |
| TickEngine.NextKeyed | crates/engine/src/sl1_runtime.rs:30-86 | a tick leaves every map of the state with exactly the declared ids |
| TickEngine.RunKeyed | crates/engine/src/sl1_runtime.rs:30-86 | so does every run |
| TickEngine.StartComplete | crates/engine/src/scenario_language_v1.rs:3949-4077 | the initial state has a record for every declared id |
| Sl1Runs.PressureRuns | crates/engine/src/sl1_pressure.rs:59-148 | pressure in a run of the tick is a run of pressure |
| Sl1Runs.PlantsRun | crates/engine/src/sl1_runtime.rs:30-56 | the plant in a run of the tick is a run of the plant under the quotas and requests of that pressure |
| Sl1Runs.GoalsRun | crates/engine/src/sl1_runtime.rs:62-64 | the goals are a run of the goals over the snapshots of that plant and demand |
| Sl1Runs.BoardsRun | crates/engine/src/sl1_runtime.rs:66-71 | the boards are a run of the boards over its freshness and use |
| Sl1Runs.AgentsRun | crates/engine/src/sl1_runtime.rs:72-78 | the agents are a run of the agents |
| Sl1Runs.DemandRuns | crates/engine/src/sl1_runtime.rs:701-829 | each demand is a run of that demand, paused and scaled as the agents and the pressure had it |
| Sl1Runs.MilestonesRun | crates/engine/src/sl1_runtime.rs:79-85 | the milestones are a run of the milestones |
| SceneTheorems.SceneKeepsLimits | crates/engine/src/sl1_runtime.rs:30-86 | the plant invariant after every tick of every scene run |
| SceneTheorems.SceneKeyed | crates/engine/src/sl1_runtime.rs:30-86 | after every tick of every scene run each map has exactly the declared ids, slots or buckets |
| SceneTheorems.SceneLedger | crates/engine/src/sl1_runtime.rs:282-311 | the stock ledger of every slot, for scene runs |
| SceneTheorems.SceneSlots | crates/engine/src/sl1_runtime.rs:160-261 | the slot accounts of every transform, for scene runs |
| SceneTheorems.SceneInstances | crates/engine/src/sl1_runtime.rs:264-428 | every instance over by its horizon, for scene runs |
| SceneTheorems.SceneDeliveries | crates/engine/src/sl1_runtime.rs:282-311 | every delivery came from an instance running the tick before and due then, for scene runs |
| SceneTheorems.SceneOutcome | crates/engine/src/sl1_objectives.rs:375-423 | outcome and its announcement told from the history of failure predicates, for scene runs |
| SceneTheorems.SceneBoards | crates/engine/src/sl1_observability.rs:43-132 | board and alert logs replay to state, for scene runs |
| SceneTheorems.SceneSpawns | crates/engine/src/sl1_runtime.rs:717-771 | a demand spawns on n exactly when due and no throttle applied before n reaches n: 1 plus the growth of the open pressures, up to the cap |
| SceneTheorems.SceneFulfils | crates/engine/src/sl1_runtime.rs:717-829 | on tick n of a scene run: born, dropped and overflow as the schedule, the throttles and the growth have it; the oldest instance left is fulfilled, and counted, iff after this tick's transforms every need has stock above 0 at the place |
| SceneTheorems.SceneBacklogs | crates/engine/src/sl1_runtime.rs:701-829 | each backlog conserved and in order, nothing in it expired, for scene runs |
| SceneTheorems.SceneMilestones | crates/engine/src/sl1_milestones.rs:109-150 | a milestone on the end of a pressure fires once, at its end tick, iff some tick saw it active |
| SceneMeanings.SceneBreaches | crates/engine/src/sl1_objectives.rs:231-349 | for scene runs: a condition is breached on tick n iff it holds in the sense above of the initial stock, deliveries and running transforms up to n |
| SceneMeanings.SceneOutcomeTold | crates/engine/src/sl1_objectives.rs:375-423 | the outcome of a scene run told from initial stock, deliveries and running transforms |
| SceneMeanings.SceneTags | crates/engine/src/sl1_runtime.rs:88-106 | a slot shows no data iff it was neither stocked nor delivered to; otherwise its tag names the latest such tick and is stale iff that is more than its budget ago |
| SceneMeanings.SceneDashboards | crates/engine/src/sl1_observability.rs:51-74 | what a dashboard shows after tick n of a scene run, told from deliveries and initial stock |
| SceneMeanings.SceneMetrics | crates/engine/src/sl1_observability.rs:76-80 | what a metric holds after tick n of a scene run, told from what is running, stock and deliveries |
| SceneMeanings.SceneAlerts | crates/engine/src/sl1_observability.rs:82-131 | an alert fires after tick n iff its metric then holds a reading its test is about, and since the first tick of that spell |
| SceneMeanings.SceneActive | crates/engine/src/sl1_pressure.rs:59-148 | after tick n a pressure is active iff at_tick <= n < at_tick + duration |
| SceneMeanings.SceneFires | crates/engine/src/sl1_milestones.rs:49-150 | on every scene run a milestone fires, once, on the first tick whose pressures, metrics or dashboards show what it waits for |
| SceneMeanings.SceneFailures | crates/engine/src/sl1_runtime.rs:622-660 | failed instances of scene runs were open since exactly deadline + max_attempts ticks before, or deadline + 1 for those that drop |
| Loading.Load | crates/engine/src/scenario_language_v1.rs:4403-4413 | one pass: check each entry, refuse a key seen before, keep it; sort at the end |
| Loading.ListedIs | crates/engine/src/scenario_language_v1.rs:4403-4413 | a loaded list is sorted by id, holds exactly the checked entries, and has as many as were declared |
| Loading.DistinctAnyOrder | crates/engine/src/scenario_language_v1.rs:4403-4413 | whether keys repeat does not depend on order |
| Loading.ListedAnyOrder | crates/engine/src/scenario_language_v1.rs:4403-4413 | permuting the entries changes neither acceptance nor the list |
| Loading.SectionAnyOrder | crates/engine/src/scenario_language_v1.rs:4275-4285 | the same with the section cap |
| LoaderEngine.LoadWorld | crates/engine/src/scenario_language_v1.rs:4303-4395 | things, then places that name them, then links between places |
| LoaderEngine.LoadWork | crates/engine/src/scenario_language_v1.rs:4401-4454 | transforms, demand, pressure, each checked against what it names |
| LoaderEngine.LoadRules | crates/engine/src/scenario_language_v1.rs:4463-4516 | objectives, failure and victory conditions |
| LoaderEngine.LoadObservability | crates/engine/src/scenario_language_v1.rs:4645-4723 | dashboards, metrics over them, alerts over those |
| LoaderEngine.LoadCast | crates/engine/src/scenario_language_v1.rs:4529-4611 | agents and milestones against the catalogue of declared ids |
| LoaderEngine.ValidateScene | crates/engine/src/scenario_language_v1.rs:4251-4628 | the scene, or none, section by section in the order of the source |
| LoaderTheorems.OrderIndependent | crates/engine/src/scenario_language_v1.rs:4251-4628 | permuting any section list, or any list of the observability block, changes neither acceptance nor the resulting scene |
| Acceptance.AcceptedExactly | crates/engine/src/scenario_language_v1.rs:4251-4628 | the loader accepts a declaration iff it is acceptable, told of the raw record alone; what it loads pairs, entry for entry and field for field, with what each section declares |
| Acceptance.ThingExactly | crates/engine/src/scenario_language_v1.rs:5705-5844 | a thing is accepted iff its id, texts, tags, schema, budget and contract are good; it carries its tags, budget and contract |
| Acceptance.PlaceExactly | crates/engine/src/scenario_language_v1.rs:4922-5034 | a place is accepted iff its slots and buckets are good and what it names is declared; it carries capacities, storage and operating states |
| Acceptance.LinkExactly | crates/engine/src/scenario_language_v1.rs:5450-5565 | a link: two declared ends that differ, travel and queue in range |
| Acceptance.TransformExactly | crates/engine/src/scenario_language_v1.rs:5846-6026 | a transform: cadence, duration within deadline, deadline, attempts and costs in range; it carries each as declared |
| Acceptance.DemandExactly | crates/engine/src/scenario_language_v1.rs:6032-6299 | a demand: its place, needs, deadline and schedule; a fixed one carries its own every and start, a scripted one its list |
| Acceptance.PressureExactly | crates/engine/src/scenario_language_v1.rs:6340-6666 | a pressure: its window, target and the amounts of its kind, and nothing of another kind |
| Acceptance.ObjectiveExactly | crates/engine/src/scenario_language_v1.rs:6838-7059 | an objective: the limits of its kind, in range, and none of another kind |
| Acceptance.FailureExactly | crates/engine/src/scenario_language_v1.rs:7061-7209 | a failure condition: threshold, grace, state or count of its kind; a grace not declared is 0 |
| Acceptance.MetricExactly | crates/engine/src/scenario_language_v1.rs:4777-4870 | a metric: the source of its kind, declared |
| Acceptance.AlertExactly | crates/engine/src/scenario_language_v1.rs:4872-4916 | an alert: a declared metric, its own test, bounds in order |
| Acceptance.AgentExactly | crates/engine/src/scenario_language_v1.rs:5170-5409 | an agent: interval, cost, cooldown, scope, allowed kinds and weights as declared and in range |
| Acceptance.MilestoneExactly | crates/engine/src/scenario_language_v1.rs:5048-5168 | a milestone: a trigger and a focus that resolve |
| LoaderTheorems.TransformsAccepted | crates/engine/src/scenario_language_v1.rs:5846-6026 | accepted transforms are canonical, within bounds, and name declared things, places and capacities |
| LoaderTheorems.DemandsAccepted | crates/engine/src/scenario_language_v1.rs:6032-6299 | accepted demands are canonical, with increasing scripted ticks and needs that resolve; what they carry is Acceptance.DemandExactly |
| LoaderTheorems.PressuresAccepted | crates/engine/src/scenario_language_v1.rs:6340-6666 | accepted pressures are canonical, within bounds, and target what exists |
| LoaderTheorems.RulesAccepted | crates/engine/src/scenario_language_v1.rs:6838-7235 | accepted rules are canonical and resolve |
| LoaderTheorems.BoardsAccepted | crates/engine/src/scenario_language_v1.rs:4645-4916 | dashboards depend on declared things, metrics read declared buckets, slots or dashboards, alerts declared metrics |
| LoaderTheorems.CastAccepted | crates/engine/src/scenario_language_v1.rs:5048-5327 | agents within their bounds; what they observe and weigh is declared, and so is what triggers a milestone and what it asks to look at |
| LoaderTheorems.WorldAccepted | crates/engine/src/scenario_language_v1.rs:4303-4395 | places store, take and give declared things or tags and look at their own buckets; links join two declared places and carry declared things or tags |
| LoaderTheorems.LayoutAccepted | crates/engine/src/scenario_language_v1.rs:4922-5034 | initial stock within storage, costs within declared capacities, sources within declared slots |
| LoaderTheorems.AcceptedScenesRun | crates/engine/src/scenario_language_v1.rs:4251-4628 | every accepted scene meets what the engine asks of a scene, and every reference it holds resolves |
| LoaderTheorems.AcceptedRunsKeepLimits | crates/engine/src/scenario_language_v1.rs:4251-4628 | from declaration to any tick: an accepted scene whose capacities have room keeps every limit and balances its ledger |
| LoaderTheorems.AcceptedRunsKeyed | crates/engine/src/scenario_language_v1.rs:3949-4077 | from declaration to any tick, whatever the capacities: every map has exactly the declared keys |
| DeclaredRuns.DeclaredStorage | crates/engine/src/scenario_language_v1.rs:3949-3990 | the plant of an accepted scene has exactly the declared storage slots, with their declared capacities and initial stock |
| DeclaredRuns.DeclaredCapacity | crates/engine/src/scenario_language_v1.rs:3949-3990 | and exactly the declared buckets, with their capacities |
| DeclaredRuns.DeclaredSpawns | crates/engine/src/sl1_runtime.rs:717-771 | from declaration to any tick: a demand declared fixed (e, s) is due iff n >= s and e divides n - s, a scripted one iff n is listed; it spawns exactly then unless a throttle reaches n |
| DeclaredRuns.DeclaredFulfils | crates/engine/src/sl1_runtime.rs:775-829 | from declaration to any tick: one more is fulfilled, the oldest in time, iff all declared needs are in stock at the declared place |
| DeclaredRuns.DeclaredWindow | crates/engine/src/sl1_pressure.rs:59-148 | from declaration to any tick: active iff declared at_tick <= n < at_tick + declared duration |
| DeclaredRuns.DeclaredFailures | crates/engine/src/sl1_runtime.rs:622-660 | from declaration to any tick: an instance fails exactly its declared deadline and attempts after it was opened |
| DeclaredRuns.DeclaredStale | crates/engine/src/sl1_objectives.rs:287-307 | from declaration to any tick: a condition on a stale target is breached iff nothing was stocked in or delivered to the declared slot within the declared threshold |
| DeclaredRuns.DeclaredOutcome | crates/engine/src/sl1_objectives.rs:375-423 | from declaration to any tick: the outcome told from stock, deliveries and what is running, over conditions that pair with the declared ones |
| AcceptedEdges.TopCapacityLosesUnits | crates/engine/src/sl1_runtime.rs:536-565 | an accepted scene, full at a capacity of 2^64 - 1, delivers a unit on tick 2 that is not there |
| AcceptedEdges.FloodOverfills | crates/engine/src/sl1_pressure.rs:234-253 | an accepted scene with room in 64 bits whose slot for one unit holds one with another on its way after tick 2 |
| Authoring.NextDense | crates/engine/src/actions.rs:416-426 | the smallest id not in the list; none only when all are taken |
| Authoring.KeysInOrder | crates/engine/src/actions.rs:404-414 | the keys of an ordered map, ascending |
| Authoring.NextUnused | crates/engine/src/actions.rs:416-467 | the smallest unused id; none only when all are used |
| Authoring.PerformKeeps | crates/engine/src/actions.rs:31-90 | every author action keeps the graph sound: path ends exist, movers stand and travel on what exists, producers and consumers name live resources, names unique, keys equal ids |
| Authoring.PerformKeepsSimple | crates/engine/src/actions.rs:146-186 | no two paths join the same pieces in the same direction |
| Authoring.AnyActionsKeepSound | crates/engine/src/actions.rs:31-90 | any sequence of actions, accepted or not, keeps the graph sound |
| Authoring.OnlyAsked | crates/engine/src/actions.rs:31-90 | after any sequence of actions everything in the graph was there before, unchanged, or was asked for with just these values, rates under the resource they named; only what was asked to be removed, with its paths, is gone |
| Authoring.PlaceThenRemove | crates/engine/src/actions.rs:92-240 | removing a piece just placed is accepted and restores the graph |
| AuthoringWorld.World.PlacePiece | crates/engine/src/actions.rs:92-144 | a placed piece gets the smallest unused id, with one event; a rejection changes nothing |
| AuthoringWorld.World.ConnectPieces | crates/engine/src/actions.rs:146-186 | a new path between existing, distinct, unjoined pieces |
| AuthoringWorld.World.Joined | crates/engine/src/actions.rs:165-170 | whether a path already runs that way |
| AuthoringWorld.World.IncidentPaths | crates/engine/src/actions.rs:193-203 | exactly the paths that touch the piece |
| AuthoringWorld.World.RemovePiece | crates/engine/src/actions.rs:188-240 | refused while a mover uses the piece or a path of it; otherwise it goes with its paths |
| AuthoringWorld.World.DefineResource | crates/engine/src/actions.rs:282-302 | a new name gets the smallest unused id and an inventory of 0 |
| AuthoringWorld.World.AddProducer | crates/engine/src/actions.rs:304-330 | a producer of a defined resource, amount and interval in range |
| AuthoringWorld.World.AddConsumer | crates/engine/src/actions.rs:332-358 | the same for a consumer |
| AuthoringWorld.World.ApplyAction | crates/engine/src/actions.rs:31-90 | a sound world stays sound; a rejected action leaves world and events untouched |
| Utf8.CutsAtBoundaries | crates/engine/src/agent_log.rs:225-241 | a well-formed string cut at c is well-formed exactly when c is a boundary |
| Utf8.BoundaryNear | crates/engine/src/agent_log.rs:225-241 | a boundary is at most three bytes back |
| AgentLogs.CapRawResponse | crates/engine/src/agent_log.rs:225-241 | the longest well-formed prefix within the cap, at most three bytes short of it, with the number of bytes cut |
| AgentLogs.WithProvenance | crates/engine/src/agent_log.rs:188-218 | the reply is redacted, then capped; its marker always passes validation, so a row is valid iff its other fields fit |
| AgentLogs.AgentLog.PushRing | crates/engine/src/agent_log.rs:653-659 | the oldest line goes, counted, when the ring is full |
| AgentLogs.AgentLog.FirstDegrade | crates/engine/src/agent_log.rs:661-668 | warns only on the first degradation |
| AgentLogs.AgentLog.Append | crates/engine/src/agent_log.rs:600-642 | an invalid row reaches neither sink nor ring; a failing sink, which may keep part of the line, sends this row and all later ones to the ring |
| AgentLogs.RowsAccounted | crates/engine/src/agent_log.rs:600-669 | after any run: the ring is the last lines sent to it; appends = sink lines + ring lines + dropped (one off for capacity 0); at most one slow warning; a torn line only once degraded, and its row went to the ring |
| AgentLogs.SinkFrozen | crates/engine/src/agent_log.rs:600-642 | once degraded, the sink is never written again, and what was torn stays as it is |

## Left out

- Plants.AdjustedAt: the nested maps of places are flattened to maps keyed by pairs, so a place entry without any slot is not told apart from a missing place; requirements of a demand are never empty, as the loader ensures.
- TickEngine.RunTick: messages and events are kept per emitter and accumulated over the run, in the order each emitter produced them; the interleaving of the two shared channels within a tick is not modelled. The ghost `history` records the moves of transforms and is read by no executable statement.
- TickEngine.Simulate: the tick counter is the number of ticks; runs end at 2^64 - 1, where the code's counter saturates. The pause, fault and stop states of the run, movers and their systems, production on the graph and the interaction stage are not part of this model.
- PlantRuns.PlantInvariant: for capacities with room, which Capacities.UnitsKeptExactly shows to be exactly those that keep units over all scenes with these capacities; whether a single scene, with its own inputs, costs and timing, ever gets as far as losing a unit is not determined.
- LoaderTheorems.AcceptedRunsKeepLimits: for capacities with room, in the same sense.
- Turns.InstanceResolves: for runs that reach the horizon before the end of the 64-bit clock.
- Demands.DemandInvariant: for runs in which 10000 spawns a tick cannot exhaust the 64-bit sequence counter.
- DeclaredRuns.DeclaredSpawns: for the same runs; growth is summed over the loaded pressures, and throttles are those of the loaded agents, both of which pair with the declared ones.
- Inflows.SceneStock: for capacities with room, as PlantRuns.PlantInvariant.
- ProtocolRuns.AtMostOneEnding: for runs that start with enough 64-bit timeline ids left for one per step; past that the id source saturates and repeats its last id.
- ProtocolRuns.ResolvedInTime: needs every tick to sweep before it takes replies; without that a late reply ends a decision with neither an apply nor a give-up, as ProtocolRuns.NoDecisionLost allows and TimelineSync.LateReplyMisfilesGiveUp shows.
- TimelineSync.TimelineInStepExactly: rows, their status, owner and attempts; the payload of a reply, faults recorded from outside, snapshots and their schema are not modelled, nor is a timeline of capacity 0, which the constructor rounds up.
- AgentEngine.DecideOne: what a backend answers is an arbitrary function of agent and tick; a backend factory with state of its own is not modelled. The scripted backend is covered by that function.
- BoardEngine.ComputeMetricState: readings of the kinds the engine evaluates; rendering of values is left out.
- GoalEngine.EvaluateObjective: weights of objectives and display strings are left out; the phase is modelled as the enum it is.
- LoaderEngine.ValidateScene: acceptance and the resulting scene. Which error is reported when several apply, and its text, are left out, as are JSON parsing, unknown-field rejection and default values.
- LoaderEngine.LoadWorld: operating-state predicates arrive parsed; fractions are real numbers, with a value that is not finite told apart; display strings, render hints, failure domains and positions are checked and not kept in the scene.
- LoaderTheorems.OrderIndependent: about lists of sections and of the observability block; a repeated entry inside one place or transform is refused as in the code, but permutations inside an entry are covered only where the code sorts them.
- Pressures.PressureClosedForm: `source_multiplier` enters in thousandths; the conversion from a floating-point multiplier is left out, as are other floating-point values (speeds, confidence). `path_outage` is a set of links, since nothing is transported.
- AuthoringWorld.World.ApplyAction: rejection reasons are values of an enumeration, not texts; `set_speed` and the speed of movers, a floating-point value compared within an epsilon, are left out.
- AgentLogs.WithProvenance: redaction is an arbitrary function on strings; its patterns are left out.
- AgentLogs.AgentLog.Append: whether a row can be serialised and whether the sink takes it are inputs of each step; how much of a line a failing write leaves behind is an input too; rendering to JSON, file names, permissions, time stamps and `observation_hash` are left out.
- Easy members left out: `as_str` and similar tables, error mapping, the mover state machine, legacy loader checks, catalogue and phase display strings.
