# Shoplifting stealth game: a Dafny model of the per-frame game logic

This project models the decision logic of a Unity shoplifting game and proves properties of it. The player steals goods from shelves, sells them at a cash register and distracts the cashier. Guards, customers and the cashier grow suspicious, raise alarms and chase the player.

Every piece of this logic runs once per frame, on one thread. Unity's geometry, navigation, animation and random rolls are replaced by plain inputs:

- distances, field-of-view and line-of-sight results are parameters;
- `Time.deltaTime` is a parameter `dt`;
- each `Random.value` roll is a parameter;
- the navigation agent is a small `NavAgent` object that records the requested speed, stop flag and destination;
- floats are `real`s.

The modules follow the game's components. Most modules model one source file; `Players` covers the player, its inventory and its mover, and `Distractions` also holds the cashier's reaction to a distraction:

- **State-machine runtime** (`Fsm`). One current state, ordered ordinary and "any-state" transitions with guards over a snapshot, and the Exit → swap → notify → Enter order of a state change. The hook calls are recorded as a trace.
- **Suspicion event bus** (`SuspicionEvents`). A synchronous subscriber list that hands every raised event to every subscriber.
- **Two suspicion models.**
  - `Enemies`: the [0, 1] score with its suspicious flag, alert latch, alert timer, decay and chance formulas.
  - `Guards`: the [0, 100] score with its six-edge Idle/Patrol/Investigate/Chase table.
  - Their variants: `Cashier` (the cashier's distraction timer), and `EnemySecurityGuard` and `GuardsSecurityGuard` (the two classes named `SecurityGuard`).
- **Behaviour states.**
  - `GuardStates`: guard patrol, investigate, chase and idle.
  - `CustomerStates`: customer patrol, flee, promo and report.
  - `Customers`: the customer controller, including the bounded cascade of re-raised theft events.
  - `LegacyCustomers`: the older customer component with its static registry.
- **Shop and economy.**
  - `GoodsData`: the goods' derived values.
  - `Players`: player, inventory and movement rules.
  - `StorableItems` and `StealableItems`: the stealable items.
  - `Shelves` and `ShelfInteraction`: the shelves.
  - `Registers`: the cash register's transaction and minigame.
  - `Distractions`: the player's distractions and their cooldowns.
  - `ShopGeneration`: the shop generator.
  - `Doors`: the automatic door's latch and layer-mask test.

The shared modules are:

- `Common`: `Option`, `Vec3`, Unity's `Mathf` clamps and C#'s `List.Remove`;
- `Text`: `string.ToLower` on the letters the game uses, and `Contains`;
- `Navigation`: the `NavAgent` stand-in;
- `Bits`: single-bit tests on 32-bit layer masks.

Components whose fields the game updates in place are classes with `modifies` frames. Their methods state the new state outright or through a specification function: the score rules `Add`, `Reduce`, `Decay` and `TimerTick`, the band table `NextBand`, the effect of each state hook (`HookEffect` in `Guards` and `Customers`), the door's `Apply`, the minigame's `ProgressStep`, and so on. Lemmas state what the game promises about those functions:

- scores stay in range;
- the alert latches;
- guards move one band per tick and settle;
- the customer cascade terminates and raises each customer once;
- cooldowns and distractions last exactly as long as configured;
- the inventory's weight is the sum of its items;
- the shop's shelf types cycle;
- the minigame bar fills at a fixed rate.

## Model

| member | source | states |
|---|---|---|
| Common.FirstNearest | Assets/Scripts/Enemy/States/PatrolState.cs:21-31 | the chosen index has the least distance and every earlier index is strictly farther, the first minimum the strict scan keeps |
| Common.PositivePart | Assets/Scripts/Player/Player.cs:116 | Mathf.Max(0, x) on integers: x when non-negative, otherwise 0 |
| Fsm.FirstEnabled | Assets/Scripts/Enemy/Core/EnemyStateMachine.cs:65-77 | the scan returns the first transition that fires, none before it fires, and nothing exactly when none fires |
| Fsm.SetStateOrder | Assets/Scripts/Enemy/Core/EnemyStateMachine.cs:41-51 | switching to the current state makes no call; from no state it raises StateChanged then Enter; otherwise Exit, StateChanged, Enter in that order, with exactly one Enter |
| Fsm.AnyTransitionsFirst | Assets/Scripts/Enemy/Core/EnemyStateMachine.cs:65-71 | a firing any-state transition is chosen whatever the current state, and the chosen one is the first firing any-state transition |
| Fsm.OrdinaryFromCurrentOnly | Assets/Scripts/Enemy/Core/EnemyStateMachine.cs:73-77 | when no any-state transition fires, an ordinary transition is chosen exactly when one from the current state fires, and it is the first such |
| Fsm.StepShape | Assets/Scripts/Enemy/Core/EnemyStateMachine.cs:30-39 | Update makes at most one state change and its calls are one of: nothing, a tick, a change, or a change followed by the new state's tick |
| Fsm.AnyToCurrentIsQuiet | Assets/Scripts/Enemy/Core/EnemyStateMachine.cs:43 | an any-state transition to the current state changes nothing and makes only the tick call |
| Fsm.NoTransitionOnlyTicks | Assets/Scripts/Enemy/Core/EnemyStateMachine.cs:30-39 | with no firing transition the state stays and only its own update runs |
| Fsm.EnemyStateMachine.constructor | Assets/Scripts/Enemy/Core/EnemyStateMachine.cs:8-14 | a new machine has no current state and empty transition lists |
| Fsm.EnemyStateMachine.SetState | Assets/Scripts/Enemy/Core/EnemyStateMachine.cs:41-51 | the new state is current and the calls are ChangeHooks of the old state |
| Fsm.EnemyStateMachine.AddTransition | Assets/Scripts/Enemy/Core/EnemyStateMachine.cs:53-57 | the transition is appended to the ordinary list |
| Fsm.EnemyStateMachine.AddAnyTransition | Assets/Scripts/Enemy/Core/EnemyStateMachine.cs:59-63 | the transition, with no source, is appended to the any-state list |
| Fsm.EnemyStateMachine.GetTransition | Assets/Scripts/Enemy/Core/EnemyStateMachine.cs:65-80 | the result is one of the registered transitions whose condition holds, an ordinary one only from the current state, and it is Select's choice |
| Fsm.EnemyStateMachine.Update | Assets/Scripts/Enemy/Core/EnemyStateMachine.cs:30-39 | the new state and the calls are StepState and StepHooks of the old state |
| SuspicionEvents.Fanout | Assets/Scripts/Events/SuspicionEvents.cs:30-33 | Raise hands the event to every subscriber, one delivery per subscriber, in subscription order |
| SuspicionEvents.RemoveLast | Assets/Scripts/Events/SuspicionEvents.cs:28 | `-=` on the event leaves the list alone when the handler is absent and removes exactly one entry when present |
| SuspicionEvents.ExactlyFourTypes | Assets/Scripts/Events/SuspicionEvents.cs:4-10 | there are exactly four distinct suspicion categories and every value is one of them |
| SuspicionEvents.FanoutReachesEveryone | Assets/Scripts/Events/SuspicionEvents.cs:30-33 | with no subscriber nothing is invoked; each handler is invoked exactly as often as it is subscribed |
| SuspicionEvents.RemoveLastDropsOne | Assets/Scripts/Events/SuspicionEvents.cs:28 | unsubscribing a subscribed handler removes exactly one occurrence of it and no other handler |
| SuspicionEvents.SuspicionBus.Subscribe | Assets/Scripts/Events/SuspicionEvents.cs:28 | `+=` appends the handler |
| SuspicionEvents.SuspicionBus.Unsubscribe | Assets/Scripts/Events/SuspicionEvents.cs:28 | `-=` removes the last occurrence of the handler, if any |
| SuspicionEvents.SuspicionBus.Raise | Assets/Scripts/Events/SuspicionEvents.cs:30-33 | the deliveries are Fanout of the subscribers; with no subscriber (the null event) nothing happens |
| SuspicionEvents.SuspicionBus.constructor | Assets/Scripts/Events/SuspicionEvents.cs:28 | the static event starts with no subscribers |
| Enemies.Detect | Assets/Scripts/Enemy/Enemy.cs:211-229 | DetectPlayer is a no-op once alerted; otherwise it latches the alert, clears the suspicious flag, sets the score to 1 and starts the 10-second timer (the timer is left alone when the missing target aborts it) |
| Enemies.Add | Assets/Scripts/Enemy/Enemy.cs:165-189 | AddSuspicion keeps the score in [0, 1]; the alert is on afterwards exactly when it was on or the clamped score reached the threshold; without an alert the flag is "score above 0.1" |
| Enemies.Reduce | Assets/Scripts/Enemy/Enemy.cs:191-209 | ReduceSuspicion floors the score at 0, recomputes the flag from the new score, never touches the alert latch or timer, and keeps a score in [0, 1] there for a non-negative amount |
| Enemies.Lose | Assets/Scripts/Enemy/Enemy.cs:231-241 | LosePlayer is a no-op when not alerted and otherwise clears the latch and the timer, leaving the score and flag |
| Enemies.TimerTick | Assets/Scripts/Enemy/Enemy.cs:243-254 | the alert timer only counts down while alerted with time left; reaching 0 ends the alert; the score and flag are untouched |
| Enemies.Decay | Assets/Scripts/Enemy/Enemy.cs:256-263 | passive decay is a reduction by rate × dt, and only happens with a positive score and no alert |
| Enemies.ScoreStaysInRange | Assets/Scripts/Enemy/Enemy.cs:165-209 | any sequence of additions (any sign) and non-negative reductions, timer ticks and decays keeps the score in [0, 1] |
| Enemies.AlertLatches | Assets/Scripts/Enemy/Enemy.cs:165-263 | once alerted, only the alert timer ends the alert: additions, reductions and decay never clear it |
| Enemies.AlertedNeverDecays | Assets/Scripts/Enemy/Enemy.cs:256-263 | while alerted, any number of decay steps leave the whole state unchanged |
| Enemies.ThreeSightingsAlert | Assets/Scripts/Enemy/Enemy.cs:16 | with the default threshold 0.8, additions of 0.3 from calm give 0.3, 0.6 (suspicious) and then an alert with score 1, the flag off and a 10-second timer |
| Enemies.TargetlessAlertNeverExpires | Assets/Scripts/Enemy/Enemy.cs:211-254 | an alert raised without a target keeps a zero timer, so the alert timer never ends it |
| Enemies.AddFlagEvent | Assets/Scripts/Enemy/Enemy.cs:171-177 | without an alert, SuspiciousChanged is raised exactly when the flag flips and carries the new value |
| Enemies.DetectEvents | Assets/Scripts/Enemy/Enemy.cs:180-183 | a detecting addition raises AlertedChanged(true), SuspiciousChanged(false), the level 1 and PlayerDetected in this order, after its own flag change |
| Enemies.DetectionChance | Assets/Scripts/Enemy/Enemy.cs:130-153 | the sight chance is in [0, 1], is 0 at the edge of the detection range and 1 at point-blank range without stealth |
| Enemies.HearingChance | Assets/Scripts/Enemy/Enemy.cs:155-163 | the hearing chance is 0 beyond the hearing range, in [0, 1] within it, 0 at its edge and for silence; it is undefined (0/0) only for a zero range |
| Enemies.FieldOfViewRules | Assets/Scripts/Enemy/Enemy.cs:107-128 | InFieldOfView: the test splits over the ray hits (in view for two hit lists exactly when in view for each), widening the field of view never loses the player, and any vision-blocking hit hides the player |
| Enemies.Enemy.constructor | Assets/Scripts/Enemy/Enemy.cs:9-25 | the inspector defaults (range 10, view 90, hearing 8, multipliers 0.5 and 1.5, threshold 0.8, growth 0.2, decay 0.1), a calm state, and the mover looked up only for a found target (Awake) |
| Enemies.Enemy.DetectPlayer | Assets/Scripts/Enemy/Enemy.cs:211-229 | the state becomes Detect of the old one; on a fresh alert the last known position is the target, the four events are raised in order and the target's crime rate grows by 50 |
| Enemies.Enemy.AddSuspicion | Assets/Scripts/Enemy/Enemy.cs:165-189 | the state becomes Add of the old one with the configured threshold, the events are AddEvents', and an alert with a target records the position and the crime |
| Enemies.Enemy.RaiseLevel | Assets/Scripts/Enemy/Enemy.cs:167-177 | the level becomes the old level plus the amount clamped to [0, 1], the flag is set exactly above 0.1, and SuspiciousChanged is raised exactly when the flag changed |
| Enemies.Enemy.ReduceSuspicion | Assets/Scripts/Enemy/Enemy.cs:191-209 | the state becomes Reduce of the old one and the flag and level events are raised only on change |
| Enemies.Enemy.LosePlayer | Assets/Scripts/Enemy/Enemy.cs:231-241 | the state becomes Lose of the old one; AlertedChanged(false) and PlayerLost are raised only when an alert ends |
| Enemies.Enemy.UpdateAlertTimer | Assets/Scripts/Enemy/Enemy.cs:243-254 | the state becomes TimerTick of the old one, with LosePlayer's events when the timer runs out |
| Enemies.Enemy.UpdateSuspicionDecay | Assets/Scripts/Enemy/Enemy.cs:256-263 | the state becomes Decay of the old one at the configured decay speed |
| Enemies.Enemy.SeenIncrement | Assets/Scripts/Enemy/Guards/SecurityGuard.cs:50-54 | the floor guard's sight adds nothing; the backup guard's sight always adds (no roll); the base enemy adds the growth rate × dt when the roll passes the detection chance |
| Enemies.Enemy.HeardIncrement | Assets/Scripts/Enemy/SecurityGuard.cs:91-99 | hearing adds something exactly when the roll passes the hearing chance, scaled by 1.5 for both guards; beyond the hearing range a positive roll adds nothing |
| Enemies.Enemy.LoudNoiseAlwaysHeard | Assets/Scripts/Enemy/SecurityGuard.cs:91-99 | a backup guard hears every roll in [0, 1] once the base hearing chance reaches 2/3, since its chance is the base chance scaled by 1.5 |
| Enemies.Enemy.Sighting | Assets/Scripts/Enemy/Enemy.cs:83-105 | within range, sight contributes only in the field of view and hearing only when the target has a mover |
| Enemies.Enemy.OnPlayerSeen | Assets/Scripts/Enemy/Enemy.cs:335-343 | the state and events are those of the optional sight addition (the override of each guard included) |
| Enemies.Enemy.OnPlayerHeard | Assets/Scripts/Enemy/Enemy.cs:345-353 | the state and events are those of the optional hearing addition (the override of each guard included) |
| Enemies.Enemy.CheckForPlayer | Assets/Scripts/Enemy/Enemy.cs:83-105 | nothing happens without a target or out of range; otherwise sight then hearing are applied in order, and exactly when either alerts the last known position becomes the target and the crime rate grows by 50 |
| Enemies.Enemy.Update | Assets/Scripts/Enemy/Enemy.cs:74-81 | nothing happens without a target; otherwise the player check, the alert timer and decay compose in this order: the new score, flags and timer, the events of all three steps in order, the last known position and the crime rate |
| Enemies.Enemy.Distract | Assets/Scripts/Enemy/SecurityGuard.cs:63-71 | the backup guard forwards the point to its state machine (when it has one); the floor guard ignores it |
| Enemies.Enemy.SetTarget | Assets/Scripts/Enemy/Enemy.cs:275-282 | the target is replaced and the mover is looked up only for a non-null target |
| Enemies.Enemy.ResetToStartPosition | Assets/Scripts/Enemy/Enemy.cs:284-300 | the state becomes calm, a reset request goes to the state machine when there is one, and the three change events are raised |
| Enemies.Enemy.SetDetectionRange | Assets/Scripts/Enemy/Enemy.cs:361-364 | the detection range is replaced |
| Enemies.Enemy.SetFieldOfView | Assets/Scripts/Enemy/Enemy.cs:366-369 | the field of view is replaced |
| Enemies.Enemy.SetHearingRange | Assets/Scripts/Enemy/Enemy.cs:371-374 | the hearing range is replaced |
| Enemies.Enemy.SetSuspicionThreshold | Assets/Scripts/Enemy/Enemy.cs:376-379 | the threshold is replaced |
| Enemies.Enemy.SetSuspicionGrowthSpeed | Assets/Scripts/Enemy/Enemy.cs:381-384 | the growth speed is replaced |
| Enemies.Enemy.SetSuspicionDecaySpeed | Assets/Scripts/Enemy/Enemy.cs:386-389 | the decay speed is replaced |
| EnemySecurityGuard.SeenRate | Assets/Scripts/Enemy/SecurityGuard.cs:73-89 | the guard's sight rate is the enhanced rate, multiplied by the stealth multiplier when sneaking and by the theft multiplier when stealing, in all four combinations |
| EnemySecurityGuard.HeardChance | Assets/Scripts/Enemy/SecurityGuard.cs:94 | the guard's hearing chance is never below a non-negative base chance and reaches 1 once the base chance reaches 2/3 |
| EnemySecurityGuard.DefaultRates | Assets/Scripts/Enemy/SecurityGuard.cs:10-12 | with the defaults, sight adds 0.3, 0.6 sneaking, 1.5 stealing and 3.0 both, so sneaking raises the rate; hearing adds 0.21 per second |
| EnemySecurityGuard.LoudEnoughAlwaysHeard | Assets/Scripts/Enemy/SecurityGuard.cs:91-99 | once the base hearing chance reaches 2/3 every roll in [0, 1] succeeds |
| EnemySecurityGuard.Others | Assets/Scripts/Enemy/SecurityGuard.cs:43-50 | the guards a backup call reaches never include the caller and are no more than the colliders hit |
| EnemySecurityGuard.OthersCounts | Assets/Scripts/Enemy/SecurityGuard.cs:43-50 | every other guard is notified exactly as often as one of its colliders was hit, and the caller never |
| EnemySecurityGuard.CallForBackup | Assets/Scripts/Enemy/SecurityGuard.cs:40-56 | the notified guards are exactly Others of the overlap hits, without the caller |
| EnemySecurityGuard.Distract | Assets/Scripts/Enemy/SecurityGuard.cs:63-71 | a distraction produces exactly one SetPatrolDestination(point) request when the guard has a state machine, and none otherwise |
| GuardsSecurityGuard.HeardRate | Assets/Scripts/Enemy/Guards/SecurityGuard.cs:56-63 | the second guard hears with the same rate formula as the first |
| GuardsSecurityGuard.Distract | Assets/Scripts/Enemy/Guards/SecurityGuard.cs:39-42 | the second guard's Distract sends no patrol destination to its state machine |
| Guards.NextBand | Assets/Scripts/Enemy/Guards/GuardLogic.cs:91-97 | one tick moves the guard at most one state up or down the Idle, Patrol, Investigate, Chase ladder |
| Guards.StepIsNextBand | Assets/Scripts/Enemy/Guards/GuardLogic.cs:82-100 | GuardTable (the six registered transitions with their at-least and below conditions): the machine's first-enabled choice over it is exactly NextBand |
| Guards.StaysExactlyInBand | Assets/Scripts/Enemy/Guards/GuardLogic.cs:91-97 | a state stays put exactly when the score lies in its band (15, 50, 80 are shared by entry and exit: no hysteresis) |
| Guards.SettlesWithinThreeTicks | Assets/Scripts/Enemy/Guards/GuardLogic.cs:91-97 | at a fixed score, three ticks from any state reach the score's band |
| Guards.GuardLogic.constructor | Assets/Scripts/Enemy/Guards/GuardLogic.cs:17-30 | the inspector defaults (sight 20, speeds 2, 3 and 5, catch distance 1.5, score 0); without an Enemy the component disables itself and builds no machine, otherwise the machine over the guard table starts in Idle with the agent stopped |
| Guards.NewGuardMachine | Assets/Scripts/Enemy/Guards/GuardLogic.cs:82-100 | the fresh machine holds exactly the guard table in registration order, no any-state edge, and has entered Idle |
| Guards.GuardLogic.HandleSuspicionEvent | Assets/Scripts/Enemy/Guards/GuardLogic.cs:102-115 | an event farther than the sight radius is ignored; any other raises the score by its amount and records its position |
| Guards.GuardLogic.AddSuspicion | Assets/Scripts/Enemy/Guards/GuardLogic.cs:119-124 | the score moves by the amount clamped to [0, 100] and the last known position is the given one |
| Guards.GuardLogic.DecreaseSuspicion | Assets/Scripts/Enemy/Guards/GuardLogic.cs:127-130 | the score drops by the amount clamped to [0, 100] |
| Guards.GuardLogic.RunHook | Assets/Scripts/Enemy/Guards/GuardLogic.cs:84-99 | each call the machine makes on a state object changes the guard as HookEffect says, and the patrol index stays in range |
| Guards.GuardLogic.RunEnter | Assets/Scripts/Enemy/Guards/GuardLogic.cs:84-99 | a state's Enter changes the guard as EnterEffect says: Idle stops the agent; Patrol, Investigate and Chase start it at their speed, Patrol towards the first nearest point and Investigate towards the last known position with a 4-second wait |
| Guards.GuardLogic.RunTick | Assets/Scripts/Enemy/Guards/GuardLogic.cs:84-99 | a state's update changes the guard as TickEffect says: patrol arrival moves to the next point, an arrived investigation runs its wait and then calms the enemy by 0.3, a chase follows the player and catches it strictly within the catch distance |
| Guards.GuardLogic.RunTrace | Assets/Scripts/Enemy/Guards/GuardLogic.cs:74-78 | running a list of calls in order changes the guard as RunHooks of that list |
| Guards.GuardLogic.StepMachine | Assets/Scripts/Enemy/Guards/GuardLogic.cs:76 | the machine takes one NextBand step and emits StepHooks over the guard table |
| Guards.HooksKeepIndex | Assets/Scripts/Enemy/States/PatrolState.cs:14-54 | no sequence of state calls moves the patrol index out of range |
| Guards.HooksOnlyLowerEnemy | Assets/Scripts/Enemy/States/InvestigateState.cs:25-37 | no sequence of state calls raises the enemy's own score or touches its alert latch and timer |
| Guards.OnlyChaseCatches | Assets/Scripts/Enemy/States/ChaseState.cs:21-33 | the player is only ever removed by a chase update within the catch distance, and never comes back |
| Guards.ChangeSetsMotion | Assets/Scripts/Enemy/Guards/GuardLogic.cs:82-100 | after a band change (exit, enter, then the new state's update) Idle has stopped the agent, Patrol and Investigate move at their own speed, and Chase moves at chase speed, stopped exactly on a catch |
| Guards.GuardLogic.Update | Assets/Scripts/Enemy/Guards/GuardLogic.cs:74-78 | one frame takes at most one NextBand step from the score before the frame, changes the guard as RunHooks of the calls the machine emits, then lowers the score by 2 × dt clamped to [0, 100] |
| GuardStates.PatrolIndex | Assets/Scripts/Enemy/States/PatrolState.cs:49-54 | the patrol index after k destinations always names one of the n points |
| GuardStates.PatrolVisitsEveryPoint | Assets/Scripts/Enemy/States/PatrolState.cs:49-54 | from any start, the next n destinations visit every patrol point |
| GuardStates.PatrolState.Enter | Assets/Scripts/Enemy/States/PatrolState.cs:14-33 | the agent starts at patrol speed, heads for FirstNearest of the point distances (the first on ties) and the index moves past it; with no points only the speed and stop flag change |
| GuardStates.PatrolState.Update | Assets/Scripts/Enemy/States/PatrolState.cs:35-41 | on arrival (no pending path, under 0.5 left) the next point is requested; otherwise nothing changes |
| GuardStates.PatrolState.SetNextDestination | Assets/Scripts/Enemy/States/PatrolState.cs:49-54 | the agent heads for the current point and the index advances cyclically; with no points nothing happens |
| GuardStates.DwellCountsDown | Assets/Scripts/Enemy/States/InvestigateState.cs:25-37 | after n arrived ticks of length dt the wait timer reads 4 − n·dt, and it has run out exactly when n·dt reaches 4 |
| GuardStates.InvestigateState.Enter | Assets/Scripts/Enemy/States/InvestigateState.cs:15-23 | the agent starts at investigate speed towards the last known position with a 4-second wait |
| GuardStates.InvestigateState.Update | Assets/Scripts/Enemy/States/InvestigateState.cs:25-37 | only on arrival the agent stops and the timer runs down; once it has run out every such tick reduces the enemy's score by 0.3 |
| GuardStates.InvestigateState.Exit | Assets/Scripts/Enemy/States/InvestigateState.cs:39-45 | the agent is released only when it exists and is on the navigation mesh |
| GuardStates.ChaseState.Enter | Assets/Scripts/Enemy/States/ChaseState.cs:13-19 | the agent starts at chase speed without a new destination |
| GuardStates.ChaseState.Update | Assets/Scripts/Enemy/States/ChaseState.cs:21-33 | with a player the destination is its position; the player is caught exactly when strictly closer than the catch distance, which stops the agent |
| GuardStates.IdleState.Enter | Assets/Scripts/Enemy/States/IdleState.cs:13-18 | entering Idle stops the agent |
| GuardStates.PatrolState.constructor | Assets/Scripts/Enemy/States/PatrolState.cs:7-12 | a new patrol state starts at patrol point 0 |
| GuardStates.InvestigateState.constructor | Assets/Scripts/Enemy/States/InvestigateState.cs:7-13 | a new investigate state has its wait timer at the default 0 |
| CustomerStates.WalkStep | Assets/Scripts/Enemy/Customer/CustomerPatrolState.cs:34-62 | a patrol tick changes nothing without points or usable navigation; a waiting customer keeps its index until the wait runs out and then moves to the next point cyclically; an arrival only starts a wait |
| CustomerStates.NoWaitNoProgress | Assets/Scripts/Enemy/Customer/CustomerPatrolState.cs:44-61 | with a wait time of zero or less an arrival never starts a wait, so a customer that is not waiting never advances to another patrol point, however many ticks run |
| CustomerStates.Heading | Assets/Scripts/Enemy/Customer/CustomerPatrolState.cs:77-82 | the agent heads for the point when it exists and keeps its destination when the point is missing |
| CustomerStates.WaitingRules | Assets/Scripts/Enemy/Customer/CustomerPatrolState.cs:9-62 | IsWaiting: a wait starts only on an arrival with usable navigation and a positive wait time, and a running wait ends on the tick its timer runs out |
| CustomerStates.StillExactlyWhileWaiting | Assets/Scripts/Enemy/Customer/CustomerPatrolState.cs:44-61 | IsWaiting and the customer's IsBlockingVision (Customer.cs:36-46, blocking exactly while waiting in Patrol): with a positive wait time a patrol tick keeps the agent stopped exactly while the customer waits |
| CustomerStates.CustomerPatrolState.constructor | Assets/Scripts/Enemy/Customer/CustomerPatrolState.cs:6-14 | a new patrol starts at index 0 and not waiting |
| CustomerStates.CustomerPatrolState.Enter | Assets/Scripts/Enemy/Customer/CustomerPatrolState.cs:16-32 | with points and usable navigation the agent resumes at patrol speed and heads for the next point; otherwise nothing changes; the wait timer is kept |
| CustomerStates.CustomerPatrolState.Update | Assets/Scripts/Enemy/Customer/CustomerPatrolState.cs:34-62 | the index and wait timer change as WalkStep and the agent as WalkMotion: it stops on arrival and, when the wait ends, resumes towards the next point if that point exists |
| CustomerStates.CustomerPatrolState.GoToNextPoint | Assets/Scripts/Enemy/Customer/CustomerPatrolState.cs:70-83 | with usable navigation the index advances cyclically first and the agent heads for that point when it exists; otherwise nothing changes |
| CustomerStates.FleePoint | Assets/Scripts/Enemy/Customer/CustomerFleeState.cs:25-26 | the flee point is the position itself when the customer stands on the theft location (the zero direction normalises to zero) |
| CustomerStates.CustomerFleeState.Enter | Assets/Scripts/Enemy/Customer/CustomerFleeState.cs:13-37 | the 10-second flee timer is set whatever the navigation; only with usable navigation the agent runs at flee speed towards the sampled flee point |
| CustomerStates.CustomerFleeState.Update | Assets/Scripts/Enemy/Customer/CustomerFleeState.cs:39-46 | the timer runs down and every tick after it is out asks to calm down |
| CustomerStates.CustomerPromoState.Enter | Assets/Scripts/Enemy/States/CustomerPromoState.cs:14-39 | the 15-second interest timer is set whatever the navigation; only with usable navigation the agent runs at promo speed towards the promo location |
| CustomerStates.CustomerPromoState.Update | Assets/Scripts/Enemy/States/CustomerPromoState.cs:41-51 | the timer runs down and every tick after it is out asks to lose interest |
| CustomerStates.FindNearestGuard | Assets/Scripts/Enemy/Customer/CustomerReportState.cs:92-115 | no guard is chosen exactly when there are none; otherwise the first guard at the smallest distance |
| CustomerStates.CustomerReportState.Enter | Assets/Scripts/Enemy/Customer/CustomerReportState.cs:15-51 | the 15-second timer is set; the target is the first nearest guard, or none without guards; only with a target and usable navigation the agent runs at flee speed |
| CustomerStates.CustomerReportState.Update | Assets/Scripts/Enemy/Customer/CustomerReportState.cs:53-77 | the timer runs down; when out, the customer calms down and nothing else happens; otherwise the report is made exactly when a target exists, the agent is active and the guard is strictly within 2 |
| CustomerStates.CustomerReportState.Exit | Assets/Scripts/Enemy/Customer/CustomerReportState.cs:79-90 | leaving the report state forgets the target guard |
| CustomerStates.CustomerReportState.ReportToGuard | Assets/Scripts/Enemy/Customer/CustomerReportState.cs:117-135 | with a target the guard is distracted towards the theft location, its controller (if any) gains 50 suspicion there, and the customer calms down; without a target nothing happens |
| Customers.StepIsNext | Assets/Scripts/Enemy/Customer/Customer.cs:86-102 | the state machine's choice over the registered transitions is exactly Next, and a witnessed theft always leads to Flee |
| Customers.FleePreempts | Assets/Scripts/Enemy/Customer/Customer.cs:86-102 | Next: the customer flees exactly when a theft was witnessed, and is at the promo exactly when lured, without a witnessed theft, and not fleeing |
| Customers.HooksOnlyClearFlags | Assets/Scripts/Enemy/Customer/Customer.cs:114-137 | no state call sets a flag; only a flee update clears the theft flag and only a promo update clears the lure |
| Customers.PatrolToFlee | Assets/Scripts/Enemy/Customer/Customer.cs:94 | a patrolling customer that witnessed a theft runs at flee speed on a fresh 10-second timer that the same frame already runs down, and keeps its patrol memory, a running wait included |
| Customers.PatrolToFleeHooks | Assets/Scripts/Enemy/Customer/Customer.cs:94 | that step exits Patrol, enters Flee and ticks it |
| Customers.FleeHooksEffect | Assets/Scripts/Enemy/Customer/CustomerFleeState.cs:13-46 | exiting Patrol, entering Flee and ticking it sets the flee timer to 10 − dt, keeps the patrol memory, runs at flee speed with usable navigation, and keeps the theft flag exactly while the timer is positive |
| Customers.FleeIsNotReentered | Assets/Scripts/Enemy/Customer/Customer.cs:94 | while fleeing with the theft flag still set the any-state transition re-selects Flee, which only ticks it: the flee timer is not restarted |
| Customers.CanSee | Assets/Scripts/Enemy/Customer/Customer.cs:139-153 | a location is seen exactly when within the view radius and half the view angle and no wall is in between |
| Customers.UnlatchOne | Assets/Scripts/Enemy/Customer/Customer.cs:127 | setting one clear theft flag lowers the number of clear flags by one |
| Customers.Cascade | Assets/Scripts/Enemy/Customer/Customer.cs:119-132 | a dispatch to the customers (with the reports raised inside it dispatched at once) never clears a flag and ends |
| Customers.CascadeFlags | Assets/Scripts/Enemy/Customer/Customer.cs:119-132 | when some customer reacts to a theft, every customer that can see the spot ends with its flag set; otherwise nothing changes and nothing is raised |
| Customers.CascadeRaisers | Assets/Scripts/Enemy/Customer/Customer.cs:121-130 | only customers that could see the spot and had a clear flag raise a report |
| Customers.CascadeRaisesAll | Assets/Scripts/Enemy/Customer/Customer.cs:121-130 | every customer whose flag the dispatch set raised a report |
| Customers.CascadeRaisesOnce | Assets/Scripts/Enemy/Customer/Customer.cs:121 | no customer raises more than one report in a dispatch |
| Customers.Customer.constructor | Assets/Scripts/Enemy/Customer/Customer.cs:9-19 | the inspector defaults (speeds 1.5, 3 and 4, wait 2, view 10 and 90, eye 1.6), both flags clear; without an agent no machine is built, otherwise it starts in Patrol |
| Customers.NewCustomerMachine | Assets/Scripts/Enemy/Customer/Customer.cs:86-102 | the fresh machine holds the any-state edge to Flee and the three ordinary edges in registration order, and has entered Patrol |
| Customers.Customer.AnnouncePromo | Assets/Scripts/Enemy/Customer/Customer.cs:105-112 | a promo is ignored once a theft has been witnessed; otherwise the customer is lured to its location |
| Customers.Customer.LoseInterestInPromo | Assets/Scripts/Enemy/Customer/Customer.cs:114-117 | only the lure is cleared |
| Customers.Customer.CalmDown | Assets/Scripts/Enemy/Customer/Customer.cs:134-137 | only the theft flag is cleared |
| Customers.Customer.HandleSuspicionEvent | Assets/Scripts/Enemy/Customer/Customer.cs:119-132 | a report is raised exactly when the flag was clear and the customer sees the theft (CanSee with its own view radius and angle); it is a theft of 75 at the same place, which is recorded; the flag ends set when it was set or a theft is seen |
| Customers.Customer.RunHook | Assets/Scripts/Enemy/Customer/Customer.cs:86-102 | each call the machine makes on a state object changes the customer as HookEffect says |
| Customers.Customer.RunEnter | Assets/Scripts/Enemy/Customer/Customer.cs:86-102 | a state's Enter changes the customer as EnterEffect says: patrol resumes towards the next point, flee and promo set their timers and, with usable navigation, run at their speed |
| Customers.Customer.RunTick | Assets/Scripts/Enemy/Customer/Customer.cs:86-102 | a state's update changes the customer as TickEffect says: the patrol walk as WalkStep and WalkMotion; the flee and promo timers run and clear their flag once out |
| Customers.Customer.RunTrace | Assets/Scripts/Enemy/Customer/Customer.cs:80-83 | running a list of calls in order changes the customer as RunHooks of that list |
| Customers.Customer.StepMachine | Assets/Scripts/Enemy/Customer/Customer.cs:82 | the machine takes one Next step and emits StepHooks over the customer table |
| Customers.Customer.Update | Assets/Scripts/Enemy/Customer/Customer.cs:80-83 | nothing happens without a machine; otherwise one Next step from the flags before the frame, and the customer changes as RunHooks of the calls the machine emits |
| CustomerStates.CustomerFleeState.constructor | Assets/Scripts/Enemy/Customer/CustomerFleeState.cs:6-11 | a new flee state has its timer at the default 0 |
| CustomerStates.CustomerPromoState.constructor | Assets/Scripts/Enemy/States/CustomerPromoState.cs:7-12 | a new promo state has its interest timer at the default 0 |
| CustomerStates.CustomerReportState.constructor | Assets/Scripts/Enemy/Customer/CustomerReportState.cs:6-13 | a new report state has no target guard and its timer at 0 |
| Cashier.Start | Assets/Scripts/Enemy/CashierGalya.cs:96-108 | starting a distraction sets the flag and, for a positive duration and a resistance in (0, 1], a timer in (0, duration] |
| Cashier.Tick | Assets/Scripts/Enemy/CashierGalya.cs:69-80 | the timer only runs while distracted; the distraction ends exactly when the timer reaches 0, which resets it |
| Cashier.DistractionLasts | Assets/Scripts/Enemy/CashierGalya.cs:69-80 | with a constant positive frame length a distraction with timer t lasts exactly while t − n·dt stays positive, then ends with everything reset |
| Cashier.DefaultDistractionLength | Assets/Scripts/Enemy/CashierGalya.cs:11-15 | with the shipped settings a distraction lasts 2.4 seconds: still on after 23 frames of 0.1 s, over after 24 |
| Cashier.DistractionClearsSuspicion | Assets/Scripts/Enemy/CashierGalya.cs:106 | the reduction by 1 a distraction applies wipes any score in [0, 1] and the flag, and leaves an alert and its timer alone |
| Cashier.CashierGalya.constructor | Assets/Scripts/Enemy/CashierGalya.cs:29-67 | the shipped settings; the enemy gets detection range 12 and field of view 120, with its score untouched |
| Cashier.CashierGalya.UpdateDistraction | Assets/Scripts/Enemy/CashierGalya.cs:52-80 | each frame the distraction state moves as Tick |
| Cashier.CashierGalya.Distract | Assets/Scripts/Enemy/CashierGalya.cs:82-94 | ignored while distracted; otherwise a patrol-destination request (with a state machine), then the distraction starts and the enemy's score is reduced by 1 |
| Cashier.CashierGalya.StartDistraction | Assets/Scripts/Enemy/CashierGalya.cs:96-108 | the state becomes Start of the settings and the enemy's score is reduced by 1 with its events |
| Cashier.CashierGalya.EndDistraction | Assets/Scripts/Enemy/CashierGalya.cs:110-115 | the distraction is cleared and the timer reset |
| Cashier.CashierGalya.DistractInPlace | Assets/Scripts/Enemy/CashierGalya.cs:166-184 | the two obsolete entry points start a distraction (with its reduction) only when not distracted, without a destination |
| LegacyCustomers.StrollStep | Assets/Scripts/Enemy/Customer.cs:91-127 | a patrol tick keeps the point index in range, waits on arrival within 0.2, and moves on to the next point cyclically exactly when a wait runs out |
| LegacyCustomers.WaitLasts | Assets/Scripts/Enemy/Customer.cs:91-100 | a wait lasts unchanged but for its timer as long as the timer stays positive |
| LegacyCustomers.WaitEnds | Assets/Scripts/Enemy/Customer.cs:91-100 | the tick on which the wait timer reaches 0 ends the wait and moves to the next point |
| LegacyCustomers.LegacyCustomer.constructor | Assets/Scripts/Enemy/Customer.cs:6-21 | the serialized settings (speed 1.5, wait 2, view 7 and 90, eye 1), at point 0 without a wait or promo |
| LegacyCustomers.LegacyCustomer.Start | Assets/Scripts/Enemy/Customer.cs:51-60 | a customer without patrol points gets a single one at its own position; the index is then usable |
| LegacyCustomers.LegacyCustomer.GoToPromo | Assets/Scripts/Enemy/Customer.cs:44-49 | the promo target and timer are overwritten, and the customer blocks vision (IsBlockingVision, line 192) from then on |
| LegacyCustomers.LegacyCustomer.Update | Assets/Scripts/Enemy/Customer.cs:62-106 | with a promo target the patrol is frozen, the customer walks while farther than 0.2 and the timer clears the target at 0; otherwise one StrollStep runs |
| LegacyCustomers.LegacyCustomer.CanSeePlayer | Assets/Scripts/Enemy/Customer.cs:152-168 | the player is seen exactly when within the view radius and half the view angle and the eye ray first hits the player |
| LegacyCustomers.LegacyCustomer.MoveToPoint | Assets/Scripts/Enemy/Customer.cs:108-127 | walking exactly while farther than 0.2 from the point; on arrival a full wait starts |
| LegacyCustomers.LegacyCustomer.ReportTheft | Assets/Scripts/Enemy/Customer.cs:170-190 | the first nearest guard calls for backup, notifying the other guards its sphere hits; without guards nothing happens |
| LegacyCustomers.CustomerRegistry.constructor | Assets/Scripts/Enemy/Customer.cs:22 | the static list starts empty |
| LegacyCustomers.CustomerRegistry.Awake | Assets/Scripts/Enemy/Customer.cs:26-30 | Awake appends the customer |
| LegacyCustomers.CustomerRegistry.OnDestroy | Assets/Scripts/Enemy/Customer.cs:31-34 | OnDestroy removes the customer's first registration |
| LegacyCustomers.CustomerRegistry.AnnouncePromo | Assets/Scripts/Enemy/Customer.cs:36-42 | every registered customer gets the promo target and duration and nothing else changes |
| LegacyCustomers.CustomerRegistry.AlertNearbyCustomers | Assets/Scripts/Enemy/Customer.cs:138-150 | in registration order, exactly the customers within the radius (inclusive) that can see the player report the theft, each once |
| GoodsData.TotalValue | Assets/Scripts/ScriptableObjects/Goods.cs:40 | the total value is the price, or twice it for valuables, and never below a non-negative price |
| GoodsData.StealingRisk | Assets/Scripts/ScriptableObjects/Goods.cs:41 | the risk is the difficulty, or 1.5 times it for valuables, and never below a non-negative difficulty |
| GoodsData.StealthPenalty | Assets/Scripts/ScriptableObjects/Goods.cs:70-79 | the penalty lies in [0, 1]; it is 0 exactly for goods neither fragile, valuable nor heavy, and 1 exactly for goods that are all three |
| GoodsData.NoiseModifier | Assets/Scripts/ScriptableObjects/Goods.cs:81-89 | the noise modifier lies between the noise level and 1.8 times it, and equals the noise level for goods neither fragile nor heavy |
| GoodsData.BandsDisjoint | Assets/Scripts/ScriptableObjects/Goods.cs:49-67 | IsHeavy, IsLight, IsExpensive and IsCheap: no goods are both heavy and light, nor both expensive and cheap |
| GoodsData.EightGoodsTypes | Assets/Scripts/ScriptableObjects/Goods.cs:93-103 | there are eight distinct categories and Regular is the first (the default) |
| StorableItems.TheftAmount | Assets/Scripts/Shop/StorableItem.cs:47 | a theft event for goods with non-negative price and difficulty has magnitude at least 15 |
| StorableItems.TheftAmountGrows | Assets/Scripts/Shop/StorableItem.cs:47 | pricier or harder goods never make a smaller theft event, and the growth is exactly a fifth per unit of price plus 5 per unit of difficulty |
| StorableItems.StorableItem.constructor | Assets/Scripts/Shop/StorableItem.cs:6-11 | a new item holds no goods, shelf or highlight material |
| StorableItems.StorableItem.Initialize | Assets/Scripts/Shop/StorableItem.cs:22-27 | the goods, the shelf and the highlight material are recorded |
| StorableItems.StorableItem.OnStolen | Assets/Scripts/Shop/StorableItem.cs:42-54 | without goods nothing is broadcast; otherwise every subscriber receives one Theft event at the item's position with TheftAmount of its goods |
| StealableItems.StealableItem.constructor | Assets/Scripts/Items/StealableItem.cs:7-9 | a new object carries the suspicion amount 30 and is neither stolen nor destroyed |
| StealableItems.StealableItem.OnStolen | Assets/Scripts/Items/StealableItem.cs:12-27 | only the first call acts: it latches the stolen flag, broadcasts one Theft event with the configured amount at the object's position, then destroys the object |
| StealableItems.StealableItem.OnMouseDown | Assets/Scripts/Items/StealableItem.cs:30-34 | a click acts exactly like OnStolen |
| Shelves.StealChance | Assets/Scripts/Shop/Shelf.cs:142-158 | the shelf theft chance lies in [0, 1] |
| Shelves.ShelfPenalty | Assets/Scripts/Shop/Shelf.cs:148-151 | the shelf's own penalties (0.2 fragile, 0.3 valuable, 0.2 heavy) sum to at most 0.7 |
| Shelves.StealChanceRules | Assets/Scripts/Shop/Shelf.cs:142-158 | StealSucceeds (CheckStealingSuccess): a harder item never has a higher chance, and plain light goods of difficulty 0 are always stolen for a roll in [0, 1] |
| Shelves.Shelf.constructor | Assets/Scripts/Shop/Shelf.cs:9-12 | a new shelf is named "Полка", unlocked and empty |
| Shelves.Shelf.CurrentItems | Assets/Scripts/Shop/Shelf.cs:20 | CurrentItems lists the goods of the items on the shelf, one per item, in order |
| Shelves.Shelf.TryStealItem | Assets/Scripts/Shop/Shelf.cs:103-140 | a missing item, one not on this shelf, a missing player, or goods the inventory cannot take are refused without a broadcast and leave the inventory and its mover untouched; otherwise the attempt is broadcast first, a failed roll changes nothing more, and a success moves the goods to the inventory (only its goods and running weight change, and the mover's overload flag, speed and events then follow as Overload states), removes the item and announces the theft (and the emptying) |
| Shelves.Shelf.Receive | Assets/Scripts/Shop/Shelf.cs:126-136 | goods the inventory can take are appended to it (only its goods and running weight change, and the mover's overload flag, speed and events then follow as Overload states), and the item leaves the shelf as TakeOff states |
| Shelves.Shelf.TakeOff | Assets/Scripts/Shop/Shelf.cs:128-136 | the first occurrence of the item leaves the list, ItemStolen is raised, and ShelfEmptied when no item is left |
| ShelfInteraction.PickupChance | Assets/Scripts/Shop/ShelfItemInteraction.cs:102-114 | the pickup chance lies in [0, 1] |
| ShelfInteraction.PickupChanceMonotone | Assets/Scripts/Shop/ShelfItemInteraction.cs:102-114 | better stealth and pickpocket skills never lower the chance, and a harder item never raises it |
| ShelfInteraction.ShelfItemInteraction.constructor | Assets/Scripts/Shop/ShelfItemInteraction.cs:5-14 | range 2, outline on, player not in range |
| ShelfInteraction.ShelfItemInteraction.CheckPlayerDistance | Assets/Scripts/Shop/ShelfItemInteraction.cs:43-56 | without a player nothing changes; otherwise the player is in range exactly within the interaction range (inclusive) and the visuals refresh only on a change |
| ShelfInteraction.ShelfItemInteraction.HandleInput | Assets/Scripts/Shop/ShelfItemInteraction.cs:58-66 | a pickup is attempted only in range, on a slot with an item, when F went down this frame; its outcome, slot, crime rate and inventory are then those TryPickupItem states; otherwise nothing changes: the inventory and its mover are untouched and, as always, only the player's crime rate may differ |
| ShelfInteraction.ShelfItemInteraction.TryPickupItem | Assets/Scripts/Shop/ShelfItemInteraction.cs:68-100 | nothing happens without a usable slot, player, inventory or goods; goods the inventory cannot take are refused; a failed roll adds 10 crime points; in all of these the inventory and its mover are untouched; a success adds the goods (only the goods and running weight change, and the mover's overload flag, speed and events then follow as Overload states), adds difficulty × 5 crime points and starts the slot's pickup, which latches it; of the player only the crime rate ever changes |
| ShelfInteraction.ShelfItemInteraction.Take | Assets/Scripts/Shop/ShelfItemInteraction.cs:94-95 | goods the inventory can take are appended (only its goods and running weight change, and the mover's overload flag, speed and events then follow as Overload states) and the crime rate rises by difficulty × 5 |
| ShelfInteraction.PickupItem | Assets/Scripts/Shop/ShelfItemVisual.cs:44-50 | a slot that holds an item starts its pickup; an empty slot or one already being picked up is left as it is |
| ShelfInteraction.FinishPickup | Assets/Scripts/Shop/ShelfItemVisual.cs:72-78 | when the pickup animation ends the item is gone and the latch is released |
| ShelfInteraction.PickupLatches | Assets/Scripts/Shop/ShelfItemVisual.cs:44-78 | starting a pickup twice is starting it once, and a slot whose pickup has started or finished is never offered to a new pickup |
| Players.CrimeAfter | Assets/Scripts/Player/Player.cs:102-112 | adding crime points that reach 100 calls the police and resets the rate to 0; below 100 the points add up; non-negative points keep the rate in [0, 100) |
| Players.UpgradeCostsRise | Assets/Scripts/Player/Player.cs:125-172 | the stealth, pickpocket and distraction upgrade costs (level × 100, 150 and 120): each upgrade costs more than the one before, and at any level pickpocket is dearest and stealth cheapest |
| Players.StealthBonus | Assets/Scripts/Player/Player.cs:175-178 | the stealth bonus is non-negative for a non-negative level and reaches 1 (cancelling sight entirely) at level 10 |
| Players.Player.GetStealthBonus | Assets/Scripts/Player/Player.cs:175-178 | the player's bonus is non-negative for a non-negative level and reaches 1, cancelling sight entirely, exactly from level 10 |
| Players.PickpocketChance | Assets/Scripts/Player/Player.cs:180-183 | the pickpocket chance never exceeds 0.9 and is 15% per level up to level 6 |
| Players.DistractionEffectiveness | Assets/Scripts/Player/Player.cs:185-188 | from level 1 the distraction effectiveness is at least 0.2 |
| Players.CapacityFor | Assets/Scripts/Player/Player.cs:190-197 | the capacity is 10 at stealth level 1 and only there, and at least 10 from level 1 |
| Players.RoundToInt | Assets/Scripts/Player/PlayerInventory.cs:189-199 | Mathf.RoundToInt gives an integer within 0.5, and a tie goes to the even one |
| Players.ItemWeight | Assets/Scripts/Player/PlayerInventory.cs:179-200 | a label with a fragile word weighs the rounded fragile weight, else one with a heavy word the rounded heavy weight, else the rounded per-item weight |
| Players.AddVerdict | Assets/Scripts/Player/PlayerInventory.cs:49-77 | an item is added exactly when it is present, fits by weight and fits by count; a missing item is refused as null, one too heavy as overloaded (weight is checked before count) |
| Players.ToggleCrouchFlags | Assets/Scripts/Player/PlayerMover.cs:186-196 | a crouch press flips crouching, keeps running, and switches stealth on when crouching starts |
| Players.ToggleRunFlags | Assets/Scripts/Player/PlayerMover.cs:198-205 | a run press flips running only when not crouching |
| Players.ToggleStealthFlags | Assets/Scripts/Player/PlayerMover.cs:207-217 | a stealth press flips stealth, keeps running, and stops crouching when stealth ends |
| Players.BaseSpeed | Assets/Scripts/Player/PlayerMover.cs:119-128 | crouching selects the crouch speed even while running; otherwise run or walk |
| Players.Noise | Assets/Scripts/Player/PlayerMover.cs:151-174 | the noise level lies in [0.3, 3] and is at most 0.9 while crouching or sneaking |
| Players.IsOverloaded | Assets/Scripts/Player/PlayerMover.cs:236-242 | with a positive capacity the player is overloaded exactly when 5 × weight exceeds 4 × capacity; with capacity 0 exactly when carrying any weight |
| Players.RatioAboveFourFifths | Assets/Scripts/Player/PlayerMover.cs:238-239 | for a positive capacity the ratio test "above 0.8" is the integer test 5c > 4m |
| Players.DefaultRounding | Assets/Scripts/Player/PlayerInventory.cs:16-18 | the default weights round to 0 (0.5 goes to even), 1 and 2 |
| Players.DefaultItemWeights | Assets/Scripts/Player/PlayerInventory.cs:179-200 | with the defaults fragile labels weigh 0, heavy ones 2, others 1, and a label with both kinds of word counts as fragile |
| Players.TotalWeightAppend | Assets/Scripts/Player/PlayerInventory.cs:68-69 | TotalWeight: the weight of a list is additive over concatenation |
| Players.TotalWeightRemoveFirst | Assets/Scripts/Player/PlayerInventory.cs:86-87 | removing one occurrence of an item removes exactly its weight |
| Players.SumPricesAppend | Assets/Scripts/Player/PlayerInventory.cs:139-154 | SumPrices: the value of a list is additive over concatenation |
| Players.TogglesKeepCrouchInStealth | Assets/Scripts/Player/PlayerMover.cs:186-217 | any sequence of presses keeps "crouching implies stealth mode" |
| Players.CrouchKeepsRunning | Assets/Scripts/Player/PlayerMover.cs:186-205 | a crouch press leaves the running flag as it was, and while crouched a run press changes nothing |
| Players.SpeedRules | Assets/Scripts/Player/PlayerMover.cs:117-149 | Speed: with the defaults crouching wins over running, and the stealth bonus is added to the multiplier: an overloaded sneaking player moves at base × (0.35 + bonus) |
| Players.OverloadNeverFaster | Assets/Scripts/Player/PlayerMover.cs:132-135 | for multipliers in [0, 1], overload never makes the player faster |
| Players.OverloadLowersMultiplier | Assets/Scripts/Player/PlayerMover.cs:130-145 | SpeedMultiplier: for multipliers in [0, 1], overload never raises the speed multiplier |
| Players.StealthNeverFaster | Assets/Scripts/Player/PlayerMover.cs:137-140 | for a stealth multiplier in [0, 1], stealth mode never makes the player faster |
| Players.NoiseRules | Assets/Scripts/Player/PlayerMover.cs:155-171 | running doubles the noise and overload multiplies it by 1.5, whatever the other flags |
| Players.Player.constructor | Assets/Scripts/Player/Player.cs:8-22 | the inspector defaults: capacity 10, all skill levels 1, no money, fine or crime, not stealing |
| Players.Player.AddMoney | Assets/Scripts/Player/Player.cs:63-67 | the money grows by the amount |
| Players.Player.SpendMoney | Assets/Scripts/Player/Player.cs:69-78 | the purchase succeeds and pays exactly when the money suffices; otherwise nothing changes |
| Players.Player.PayFine | Assets/Scripts/Player/Player.cs:91-100 | an affordable fine is paid in full and cleared; otherwise nothing changes |
| Players.Player.AddFine | Assets/Scripts/Player/Player.cs:80-89 | the fine grows by the amount, and the whole fine is paid at once when affordable |
| Players.Player.AddCrimeRate | Assets/Scripts/Player/Player.cs:102-112 | the rate becomes CrimeAfter of the old rate and the points |
| Players.Player.CallPolice | Assets/Scripts/Player/Player.cs:199-209 | the rate is reset to 0 |
| Players.Player.ReduceCrimeRate | Assets/Scripts/Player/Player.cs:114-118 | the rate drops by the reduction but never below 0 |
| Players.Player.OnEnemyDied | Assets/Scripts/Player/Player.cs:120-123 | an enemy's death adds its crime points like AddCrimeRate |
| Players.Player.UpdateInventoryWeight | Assets/Scripts/Player/Player.cs:190-197 | with an inventory the capacity becomes CapacityFor the stealth level and is handed to it, whose other fields stay as they were while the mover's overload flag, speed and events then follow as Overload states; without one nothing changes |
| Players.Player.TryUpgradeStealth | Assets/Scripts/Player/Player.cs:125-140 | the stealth level rises by one exactly when level × 100 is paid, and the inventory's capacity follows (nothing else of it changes, and the mover's overload flag, speed and events then follow as Overload states); a refused upgrade leaves the inventory and its mover untouched |
| Players.Player.TryUpgradePickpocket | Assets/Scripts/Player/Player.cs:142-156 | the pickpocket level rises by one exactly when level × 150 is paid |
| Players.Player.TryUpgradeDistraction | Assets/Scripts/Player/Player.cs:158-172 | the distraction level rises by one exactly when level × 120 is paid |
| Players.Player.TrySteal | Assets/Scripts/Player/Player.cs:217-221 | the player is marked as stealing |
| Players.Player.ResetStealing | Assets/Scripts/Player/Player.cs:223-226 | the stealing mark is cleared |
| Players.PlayerInventory.constructor | Assets/Scripts/Player/PlayerInventory.cs:10-20 | the inspector defaults: capacity 10, 20 slots, weights 1, 0.5 and 2, empty |
| Players.PlayerInventory.CanAddItem | Assets/Scripts/Player/PlayerInventory.cs:229-236 | true exactly when TryAddItem would accept the item |
| Players.PlayerInventory.GetFreeWeight | Assets/Scripts/Player/PlayerInventory.cs:238-241 | the free weight is non-negative exactly when the load is within capacity |
| Players.PlayerInventory.GetFreeSlots | Assets/Scripts/Player/PlayerInventory.cs:243-246 | there are free slots exactly when fewer items than the maximum are carried |
| Players.PlayerInventory.GetItemByIndex | Assets/Scripts/Player/PlayerInventory.cs:115-121 | an item is returned exactly for an index in range, and it is the item at that index |
| Players.PlayerInventory.HasItem | Assets/Scripts/Player/PlayerInventory.cs:123-126 | an item is held exactly when it occurs at least once in the list |
| Players.PlayerInventory.WeightOf | Assets/Scripts/Player/PlayerInventory.cs:179-200 | with the default weights every item weighs 0, 1 or 2 |
| Players.PlayerInventory.Start | Assets/Scripts/Player/PlayerInventory.cs:43-47 | the capacity is copied from the player when there is one (the private UpdateMaxWeight at lines 210-216), nothing else of the inventory changes, and the mover's overload flag, speed and events then follow as Overload states |
| Players.PlayerInventory.UpdateOverloadStatus | Assets/Scripts/Player/PlayerInventory.cs:202-208 | the mover, when present, takes Overload for the current load: on a flip it records OverloadChanged, recomputes its speed and records SpeedChanged; with no flip it is unchanged |
| Players.PlayerInventory.TryAddItem | Assets/Scripts/Player/PlayerInventory.cs:49-77 | the outcome is AddVerdict's; an added item is appended with its weight, no other inventory field changes, and the mover's overload flag, speed and events then follow as Overload states; a refusal leaves the inventory and its mover untouched; the running weight stays the sum of the item weights |
| Players.PlayerInventory.TryRemoveItem | Assets/Scripts/Player/PlayerInventory.cs:79-95 | the removal succeeds exactly for a present item; its first occurrence and its weight are removed and the mover's overload flag, speed and events then follow as Overload states; otherwise the inventory and its mover are untouched |
| Players.PlayerInventory.TryRemoveItemByIndex | Assets/Scripts/Player/PlayerInventory.cs:97-103 | the removal succeeds exactly for an index in range, removes the first occurrence of that item and its weight, and the mover's overload flag, speed and events then follow as Overload states; otherwise the inventory and its mover are untouched |
| Players.PlayerInventory.RemoveAllItems | Assets/Scripts/Player/PlayerInventory.cs:105-113 | the list empties, the weight becomes 0 and the mover's overload flag, speed and events then follow as Overload states |
| Players.PlayerInventory.GetItemCount | Assets/Scripts/Player/PlayerInventory.cs:128-137 | the count is the number of occurrences of the item |
| Players.PlayerInventory.GetTotalValue | Assets/Scripts/Player/PlayerInventory.cs:139-147 | the total is the sum of the prices, non-negative when every price is |
| Players.PlayerInventory.SellAllItems | Assets/Scripts/Player/PlayerInventory.cs:149-154 | the player earns the sum of the prices, the inventory empties and the mover's overload flag, speed and events then follow as Overload states |
| Players.PlayerInventory.SellItem | Assets/Scripts/Player/PlayerInventory.cs:156-162 | a present item is removed, the player earns its price and the mover's overload flag, speed and events then follow as Overload states; otherwise the money, the inventory and its mover are untouched |
| Players.PlayerInventory.SellItemByIndex | Assets/Scripts/Player/PlayerInventory.cs:164-171 | the item at an index in range is sold as SellItem states; otherwise the money, the inventory and its mover are untouched |
| Players.PlayerInventory.UpdateMaxWeight | Assets/Scripts/Player/PlayerInventory.cs:173-177 | the capacity is replaced and the mover's overload flag, speed and events then follow as Overload states |
| Players.PlayerMover.constructor | Assets/Scripts/Player/PlayerMover.cs:9-26 | the inspector defaults: speeds 3, 6 and 1.5, multipliers 0.5 and 0.7, noise 1, no mode flag set |
| Players.PlayerMover.IsMoving | Assets/Scripts/Player/PlayerMover.cs:225-228 | the player moves exactly when the input direction is longer than 0.1 |
| Players.PlayerMover.SpeedNow | Assets/Scripts/Player/PlayerMover.cs:117-149 | without a player, overload or stealth mode the speed is the base speed of the movement mode |
| Players.PlayerMover.UpdateSpeed | Assets/Scripts/Player/PlayerMover.cs:117-149 | the speed becomes the base speed of the mode times the multiplier, announced by SpeedChanged |
| Players.PlayerMover.UpdateNoiseLevel | Assets/Scripts/Player/PlayerMover.cs:151-174 | the noise level becomes Noise of the mode flags and the overload flag |
| Players.PlayerMover.SetOverloaded | Assets/Scripts/Player/PlayerMover.cs:176-184 | the new state is Overload of the old one: the flag is set; only a change recomputes the speed and records OverloadChanged then SpeedChanged |
| Players.OverloadRules | Assets/Scripts/Player/PlayerMover.cs:176-184 | setting the flag is idempotent, leaves the mover as it was exactly when the flag already has that value, and otherwise changes only the flag, the speed and the event log, to which it appends exactly OverloadChanged and SpeedChanged |
| Players.PlayerMover.UpdateOverloadStatus | Assets/Scripts/Player/PlayerMover.cs:236-242 | the new state is Overload of the old one for IsOverloaded of the load, so only a flip raises events |
| Players.PlayerMover.ToggleCrouch | Assets/Scripts/Player/PlayerMover.cs:186-196 | the mode flags move as ToggleCrouchFlags, with CrouchChanged and, when stealth switches on, StealthModeChanged |
| Players.PlayerMover.ToggleRun | Assets/Scripts/Player/PlayerMover.cs:198-205 | the mode flags move as ToggleRunFlags, with RunChanged only when not crouching |
| Players.PlayerMover.ToggleStealthMode | Assets/Scripts/Player/PlayerMover.cs:207-217 | the mode flags move as ToggleStealthFlags, with StealthModeChanged and, when crouching stops, CrouchChanged |
| Registers.ProgressStep | Assets/Scripts/Shop/CashRegister.cs:146-155 | one minigame frame keeps the bar in [0, 1], and when no clamping is needed adds exactly dt times the fill rate (2 with Space held, else 0.5) |
| Registers.Ramp | Assets/Scripts/Shop/CashRegister.cs:142-158 | repeated non-negative frame increments never make the bar's unclamped total negative |
| Registers.RampIsProduct | Assets/Scripts/Shop/CashRegister.cs:142-158 | n equal frame increments add up to n times the increment |
| Registers.FillRamps | Assets/Scripts/Shop/CashRegister.cs:142-158 | filling an empty bar n times by a non-negative step gives min(1, the sum of the steps) |
| Registers.ProgressesFill | Assets/Scripts/Shop/CashRegister.cs:142-158 | n minigame frames of the same length are n clamped steps of dt times the fill rate |
| Registers.ProgressFills | Assets/Scripts/Shop/CashRegister.cs:142-158 | FillRate: from an empty bar, n frames of length dt fill it to min(1, n·dt·rate): holding Space fills it four times as fast until it is full |
| Registers.ClampedStep | Assets/Scripts/Shop/CashRegister.cs:155 | clamping after every frame gives the same bar as clamping once at the end when every step is non-negative |
| Registers.Batch | Assets/Scripts/Shop/CashRegister.cs:116-119 | a transaction takes a prefix of the stolen items of at most the maximum length, and all of them when there are fewer than the maximum |
| Registers.CashRegister.constructor | Assets/Scripts/Shop/CashRegister.cs:8-17 | the register starts as "Касса" with range 2, a 5-second minigame, threshold 0.7, at most 5 items, nothing running and nothing announced |
| Registers.CashRegister.CheckPlayerDistance | Assets/Scripts/Shop/CashRegister.cs:79-92 | without a player nothing changes; otherwise the player is in range exactly when within the interaction range, and a change of that flag is announced once |
| Registers.CashRegister.StartTransaction | Assets/Scripts/Shop/CashRegister.cs:104-136 | a running transaction or a missing inventory blocks the start; no stolen items start nothing; otherwise the batch is taken, timer and bar restart with the coroutine's first frame, and TransactionStarted is announced |
| Registers.CashRegister.MinigameFrame | Assets/Scripts/Shop/CashRegister.cs:138-161 | before the time is up a frame only advances the bar; once the timer has reached the duration the transaction completes and settles |
| Registers.CashRegister.CompleteTransaction | Assets/Scripts/Shop/CashRegister.cs:163-205 | the transaction succeeds exactly when the bar reached the threshold; on success the player gains the batch's total price and every batch item is removed from the inventory, on failure nothing is paid or removed; the batch is cleared and the outcome with the total is announced |
| Registers.CashRegister.CancelTransaction | Assets/Scripts/Shop/CashRegister.cs:248-268 | a running transaction ends with an empty batch, without payment or announcement; otherwise nothing changes |
| Registers.CashRegister.HandleInput | Assets/Scripts/Shop/CashRegister.cs:94-102 | E starts a transaction only when the player is in range and none is running; the outcome is then that of StartTransaction |
| Distractions.CooldownTick | Assets/Scripts/Player/PlayerDistractions.cs:65-92 | a ready distraction is untouched; a locked one is released exactly when its timer minus the frame reaches 0 or less, and a released one has a zero timer |
| Distractions.TickKeepsWellFormed | Assets/Scripts/Player/PlayerDistractions.cs:65-92 | a frame keeps a ready distraction's timer at 0 and a locked one's within the cooldown length |
| Distractions.CooldownLasts | Assets/Scripts/Player/PlayerDistractions.cs:65-92 | with a constant positive frame length a distraction locked for t stays locked exactly while t − n·dt is positive, with that much left, and is then ready with a zero timer |
| Distractions.DefaultCooldownLength | Assets/Scripts/Player/PlayerDistractions.cs:14 | with the shipped 3-second cooldown and 0.1 s frames a used distraction is still locked after 29 frames and ready after 30 |
| Distractions.MoneyLockLastsOneFrame | Assets/Scripts/Player/PlayerDistractions.cs:277-284 | the lock set by a low balance carries no timer, so the next cooldown frame releases the coin throw again |
| Distractions.Reached | Assets/Scripts/Enemy/CashierGalya.cs:167-184 | a call that does not reach a cashier, or reaches one already distracted, changes nothing; a reached cashier is distracted afterwards |
| Distractions.ReachedTwice | Assets/Scripts/Enemy/CashierGalya.cs:167-184 | reaching a cashier with two calls in one frame is the same as reaching her once |
| Distractions.ComposeOutcomes | Assets/Scripts/Player/PlayerDistractions.cs:94-107 | a coin throw and a shout in the same frame reduce a reached cashier's enemy by 1 at most once |
| Distractions.DistractAll | Assets/Scripts/Player/PlayerDistractions.cs:118-129 | every cashier within the range is distracted (with its enemy's reduction when newly distracted), every other one is untouched, and the result says whether any was within range |
| Distractions.PlayerDistractions.constructor | Assets/Scripts/Player/PlayerDistractions.cs:11-24 | the inspector defaults: coin range 5, shout range 8, cost 1, cooldown 3 seconds, both distractions ready |
| Distractions.PlayerDistractions.UpdateCooldowns | Assets/Scripts/Player/PlayerDistractions.cs:65-92 | each distraction moves as CooldownTick, and each locked one announces its decremented timer, coin first |
| Distractions.PlayerDistractions.OnMoneyChanged | Assets/Scripts/Player/PlayerDistractions.cs:277-284 | the coin throw stays free exactly when it was free and the new balance covers its cost |
| Distractions.PlayerDistractions.ThrowMoney | Assets/Scripts/Player/PlayerDistractions.cs:109-148 | the throw happens exactly when it is free and the player can pay; then the cost is paid, every cashier within 5 is distracted, the coin effect appears when any was, and the throw locks for the cooldown; otherwise nothing changes |
| Distractions.PlayerDistractions.PayForThrow | Assets/Scripts/Player/PlayerDistractions.cs:115 | the cost leaves the balance, and the throw stays unlocked only if it was and the new balance still covers the cost (OnMoneyChanged) |
| Distractions.PlayerDistractions.LaunchThrow | Assets/Scripts/Player/PlayerDistractions.cs:117-146 | every cashier within the throw range is distracted and the others are untouched, the coin effect appears exactly when any was in range, and the throw locks for the cooldown with MoneyThrown raised last |
| Distractions.PlayerDistractions.PressThrow | Assets/Scripts/Player/PlayerDistractions.cs:97-100 | an E press throws exactly when the throw is free and affordable; without the press or while locked nothing changes |
| Distractions.PlayerDistractions.PressShout | Assets/Scripts/Player/PlayerDistractions.cs:103-106 | a Q press shouts exactly when the shout is free; without the press or while locked nothing changes |
| Distractions.PlayerDistractions.ShoutAboutSale | Assets/Scripts/Player/PlayerDistractions.cs:150-186 | the shout happens exactly when it is free; then, at no cost, every cashier within 8 is distracted, the shout effect appears when any was, and the shout locks for the cooldown; otherwise nothing changes |
| Distractions.PlayerDistractions.Update | Assets/Scripts/Player/PlayerDistractions.cs:59-63 | the cooldowns tick before the keys are read, so a distraction released this frame can be used by this frame's key press; money, cashiers, cooldowns and announcements follow |
| Distractions.PlayerDistractions.HandleInput | Assets/Scripts/Player/PlayerDistractions.cs:94-107 | E throws when the throw is free, then Q shouts when the shout is free; a cashier reached by both is distracted once, and the announcements come throw first |
| ShopGeneration.CsRem6 | Assets/Scripts/Shop/GoodsGenerator.cs:137 | C#'s remainder by 6 agrees with the mathematical one for non-negative indices, lies in (−6, 0] for negative ones, and always differs from the index by a multiple of 6 |
| ShopGeneration.ShelfTypeCycle | Assets/Scripts/Shop/GoodsGenerator.cs:134-147 | ShelfType (GetShelfType): a non-negative index gets the type at its position in the six-type cycle Food, Alcohol, Electronics, Clothing, Medicine, Luxury; Regular comes exactly from negative indices that are not multiples of 6 |
| ShopGeneration.ShelfTypePeriodic | Assets/Scripts/Shop/GoodsGenerator.cs:134-147 | the shelf types repeat every six shelves |
| ShopGeneration.DefaultShopTypes | Assets/Scripts/Shop/GoodsGenerator.cs:8 | the five shelves of the default shop get Food, Alcohol, Electronics, Clothing and Medicine, so no Luxury shelf is generated |
| ShopGeneration.Placement | Assets/Scripts/Shop/GoodsGenerator.cs:60-64 | every shelf stands at the start height, and either on the start row or one z-spacing behind it |
| ShopGeneration.PlacementZigZag | Assets/Scripts/Shop/GoodsGenerator.cs:60-64 | consecutive shelves are one x-spacing apart; even shelves stand on the start row and odd ones one z-spacing behind, so neighbours alternate rows |
| ShopGeneration.DefaultGoods | Assets/Scripts/Shop/GoodsGenerator.cs:170-246 | every built-in catalogue has at least three entries |
| ShopGeneration.DefaultCatalogues | Assets/Scripts/Shop/GoodsGenerator.cs:170-246 | four food items and three of every other kind; every entry has a positive price, weight and difficulty, and is of its catalogue's type (Regular for the fallback) |
| ShopGeneration.GoodsByType | Assets/Scripts/Shop/GoodsGenerator.cs:149-168 | a shelf is never given an empty list: the configured list for its type when that is non-empty, otherwise the built-in catalogue |
| ShopGeneration.FirstSize | Assets/Scripts/Shop/GoodsGenerator.cs:340-358 | an item's size is the default cube or the size of one of the keyword rules |
| ShopGeneration.ItemSizeRule | Assets/Scripts/Shop/GoodsGenerator.cs:340-358 | ItemSize (GetItemSize): a label holding no keyword gets the 0.2 cube; otherwise the first keyword in rule order that occurs decides the size |
| ShopGeneration.EggsGetDefaultSize | Assets/Scripts/Shop/GoodsGenerator.cs:342-357 | the built-in "Яйца" lower-cases to a label without the keyword "яйцо" and gets the default cube |
| ShopGeneration.BreadGetsBreadSize | Assets/Scripts/Shop/GoodsGenerator.cs:342-357 | "Хлеб" lower-cases to the first keyword and gets the bread size |
| ShopGeneration.GoodsGenerator.Planned | Assets/Scripts/Shop/GoodsGenerator.cs:71-132 | the shelf made for index i has that index, the cycled type of i and a non-empty goods list |
| ShopGeneration.GoodsGenerator.constructor | Assets/Scripts/Shop/GoodsGenerator.cs:6-25 | the inspector defaults: generate on start, five shelves spaced (3, 0, 3) from the origin, no configured goods, nothing generated |
| ShopGeneration.GoodsGenerator.ClearExistingShelves | Assets/Scripts/Shop/GoodsGenerator.cs:43-54 | every generated shelf is destroyed, in order, and the list is emptied |
| ShopGeneration.GoodsGenerator.GenerateShelves | Assets/Scripts/Shop/GoodsGenerator.cs:56-69 | one shelf per index below the count (none for a count of 0 or less) is appended in index order, shelf i being the one planned for i, and the earlier list is kept |
| ShopGeneration.GoodsGenerator.GenerateShop | Assets/Scripts/Shop/GoodsGenerator.cs:36-41 | the old shelves are destroyed and exactly max(0, count) planned shelves replace them |
| ShopGeneration.GoodsGenerator.Start | Assets/Scripts/Shop/GoodsGenerator.cs:27-33 | the shop is generated on start exactly when so configured; otherwise nothing changes |
| Bits.SingleBit | Assets/Scripts/DoorMotion.cs:26 | masking a word with a single set bit k is non-zero exactly when bit k of the word is set |
| Doors.ShiftCount | Assets/Scripts/DoorMotion.cs:26 | the shift count C# uses for `1 << layer` on an int is below 32 |
| Doors.TriggerLayerBit | Assets/Scripts/DoorMotion.cs:26 | a collider passes the layer test exactly when bit (layer mod 32) of the trigger mask is set |
| Doors.TriggerLayerMasks | Assets/Scripts/DoorMotion.cs:8 | every layer passes the default all-layers mask (−1), none passes an empty mask, and layers 32 apart behave alike |
| Doors.Apply | Assets/Scripts/DoorMotion.cs:41-69 | the door operations never add or remove the Animator, and without an Animator they change nothing |
| Doors.DoorLaws | Assets/Scripts/DoorMotion.cs:41-69 | opening twice is opening once and closing twice is closing once; with an Animator, Open leaves the door open, Close leaves it closed and Toggle flips it; toggling twice restores the state |
| Doors.DoorMotion.constructor | Assets/Scripts/DoorMotion.cs:6-21 | the inspector defaults: parameter "DoorIsOpening", all trigger layers, a closed door and no Animator calls |
| Doors.DoorMotion.OpenDoor | Assets/Scripts/DoorMotion.cs:41-48 | the state moves as Apply with Open, and the parameter is set true exactly when an Animator is present and the door was closed |
| Doors.DoorMotion.CloseDoor | Assets/Scripts/DoorMotion.cs:50-57 | the state moves as Apply with Close, and the parameter is set false exactly when an Animator is present and the door was open |
| Doors.DoorMotion.ToggleDoor | Assets/Scripts/DoorMotion.cs:59-69 | the state moves as Apply with Toggle, and with an Animator the parameter is set to the opposite of the old state |
| Doors.DoorMotion.OnTriggerEnter | Assets/Scripts/DoorMotion.cs:23-30 | a collider on a trigger layer opens the door as OpenDoor does; any other collider changes nothing |
| Doors.DoorMotion.OnTriggerExit | Assets/Scripts/DoorMotion.cs:32-39 | a collider on a trigger layer closes the door as CloseDoor does; any other collider changes nothing |

## Left out

- Geometry and physics: vector distances, angles, normalisation, raycasts, overlap spheres and navmesh sampling are not computed. Distances, field-of-view and line-of-sight results, and whether a navmesh sample succeeded, are inputs.
- Randomness: every `Random.value` roll is a parameter. The contracts state what the roll must satisfy and what the chance itself is.
- Floating point: floats are mathematical reals. IEEE rounding, infinities and NaN are not modelled, except for two cases. `Mathf.RoundToInt(0.5)` is written out as round-half-to-even. The NaN of a zero hearing range is the `None` of `Enemies.HearingChance`.
- Enemies.DetectionChance: requires a positive detection range. With a zero range the source divides by zero in floating point, which reals cannot express.
- Time: `Time.deltaTime` and `Time.time` are the parameter `dt` (and `elapsed` for the register's minigame). Coroutines are modelled frame by frame: `CashRegister.MinigameFrame` is one frame of the minigame.
- Animation, audio, rendering and UI are not modelled: animator parameters (except the door's, which are recorded), sounds, materials, highlight colours, gizmos, effect coroutines, minigame UI text and `Debug.Log`. The no-op `Exit` and `Update` hooks that only touch the animator have no contract: PatrolState.Exit, ChaseState.Exit, IdleState.Update and IdleState.Exit, CustomerPatrolState.Exit, and the flee and promo states' Exit.
- Unity object lifecycle is not modelled: `Instantiate`, `Destroy`, `FindObjectOfType`, `GetComponent` and `RequireComponent`. Components that are found become constructor or method parameters. A destroyed object is recorded as a request: the caught player, the stolen item, the destroyed shelves.
- Reflection writes in the shop generator are not modelled: shelf name, shelf materials, goods description and prefab, `CreateItemPrefab` and `GetItemColor`. The shelf's `SetAvailableGoods` is recorded as the goods list a generated shelf is given.
- Shelf setup and refill are not modelled: `InitializeShelf`, `ClearShelf`, `RefillShelf` and `UpdateVisuals` create and destroy scene objects. A shelf's item list is an input to its constructor.
- Event subscription in `OnEnable`/`OnDisable` is not modelled. Each controller's handler is treated as subscribed for its lifetime. `SuspicionBus.Subscribe` and `SuspicionBus.Unsubscribe` model the subscriber list itself.
- The police call is not modelled: `PoliceCall.Call` would add the crime rate again and recurse without bound. `Player.CallPolice` is only the reset of the crime rate to 0, as though no `PoliceCall` is present.
- State-machine API calls (`Initialize`, `ResetToFirstState`, `SetPatrolDestination`) have no effect in the model. `Enemy.cs`, `CashierGalya.cs` and `SecurityGuard.cs` call them on a state machine whose runtime does not define them. They are recorded as `MachineRequest`s.
- Inventory calls made by the cash register are modelled as follows. `GetStolenItems` is not defined by the inventory, so the stolen items are an input. Each `RemoveItem` is recorded in `removals`.
- Goods identity: goods are compared by value. The game compares asset references, so two distinct assets with equal fields are one item here.
- The two classes named `Customer` are separate modules: `Customers` and `LegacyCustomers`. The two classes named `SecurityGuard` are the modules `EnemySecurityGuard` and `GuardsSecurityGuard`. Within `Enemies` they are the enemy kinds `BackupGuard` and `FloorGuard`, which select the overridden `OnPlayerSeen`/`OnPlayerHeard`.
- GuardsSecurityGuard: its private `new CheckForPlayer` is not modelled, because the base class's `Update` never calls it. Its `CallForBackup` is the same loop as the other guard's and is modelled once, as `EnemySecurityGuard.CallForBackup`.
- CustomerReportState is modelled, but the `Customer` controller never registers it, so no customer reaches it.
- Distractions.DistractAll, and the PlayerDistractions methods that call it, require the cashiers to be distinct objects with distinct enemy components, as `FindObjectsOfType` returns them.
- Methods that tick timers require `dt ≥ 0`, as a frame time is.
- Player health and satiety are not modelled: `ApplyDamage` and `Die`. Neither are `Enemy.TakeDamage`/`Die` and `Enemy.OnPlayerOutOfRange`, whose body is empty.
- PlayerMover's `Update`, `HandleInput`, `Move`, `ForceStop`, `GetMoveDirection` and camera look are not modelled: they are keyboard input and `CharacterController` physics. The mode changes they trigger are the modelled toggles.
- PlayerInventory's `ShowInventoryInfo` (logging) and its change events are not modelled.
- `Player.Start` and `PlayerMover.Start` are not separate members: the first only calls `Players.Player.UpdateInventoryWeight` and the second only calls `Players.PlayerMover.UpdateSpeed`, which are both modelled. `PlayerInventory.Start` is modelled as `Players.PlayerInventory.Start`.
- The Player's change events (`MoneyChanged`, `FineChanged`, `CrimeRateChanged`, `StealthLevelChanged`, `PickpocketLevelChanged`, `DistractionLevelChanged` and `PlayerDied`) are not modelled, and neither are their listeners other than one: `PlayerDistractions.OnMoneyChanged` is applied right after the throw's own payment, and not on other changes of the player's money.
- Players.Player.TrySteal: the delayed `Invoke(ResetStealing, 0.5f)` is not modelled, so the stealing flag stays set after the call; the reset itself is `Players.Player.ResetStealing`.
- ShopGeneration.GoodsGenerator.ClearExistingShelves: the source skips list entries whose shelf was already destroyed; the model's list holds only live shelves, so every entry is recorded as destroyed.
- ShelfItemInteraction's `UpdateVisuals` and its `Initialize` (renderer setup) are not modelled. The pickup animation's timing is not modelled either; its effects on the slot at the start and at the end are `ShelfInteraction.PickupItem` and `ShelfInteraction.FinishPickup`.
- StorableItem's `Highlight`/`Unhighlight` (renderer materials) are not modelled.
- GuardLogic's `TestAddSuspicion` context-menu debug method is not modelled; it only calls `AddSuspicion` with 20.
- The initial minimum distance `float.MaxValue` of the nearest-guard searches is written as "no guard found yet", with the same strict `<` comparison.
