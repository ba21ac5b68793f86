# Verified model of Pioneer's control plane, blob store and notarization protocols

This project models, in Dafny, the parts of Pioneer whose guarantees range over
every interleaving, redelivery and restart, and proves those guarantees.

| files | what they model |
|---|---|
| `ControlRegistry`, `RegistryLaws`, `RegistryRuns` | the bounded table of control operations of one actor generation |
| `ControlProtocol`, `ControlDelivery`, `ReservationOwnership`, `LateDispatch` | callers, dispatchers, mailbox and actor as steps over that table |
| `RetiredLedger`, `ActorOwnership`, `ActorFencing` | tombstones of retired actors; creating, fencing, removing and retiring actors under one lock; asking for an operation's status |
| `ExecutionWindows`, `TurnTotals` | usage counters, the total budget and the requests handed from window to window |
| `AgentLoop`, `AgentLoopActor`, `AgentLoopLaws`, `AgentLoopOutcomes`, `AgentLoopTerminals`, `AgentLoopLog`, `AgentLoopAnswers`, `AgentLoopRuns`, `AgentLoopStops`, `AgentLoopWindows`, `AgentLoopTotals`, `DurablePublish` | the command loop of an agent: its locals, its control plane, its durable log and the turn flows that post to it |
| `RuntimeHistory` | runtime generations and their bounded history |
| `BlobKeys`, `BlobStore`, `BlobGuard`, `BlobGuardAlone`, `BlobGc` | storage keys, the two put implementations, the guarded races, one caller alone and a collection pass |
| `Notarization`, `Packaging`, `PackagingCompletes` | crash-safe submission, stapling and staging |

Code that updates state in place is a class whose methods are proved equal to a
function on values (`View() == F(old(View()))`); the theorems are lemmas about
those functions and about whole runs of them. Concurrency is a step relation:
a run is any sequence of enabled steps. A crash is a step that forgets the
process and keeps the disk.

## Where the code falls short of its promise

Two promises do not hold of the code as written. Each has a concrete run and the
exact condition under which the promise does hold.

- **At-most-once dispatch.** A reservation carries no owner and can expire before
  its dispatcher acts. A dispatcher that gives up late drops whatever entry is on
  record, even one another dispatcher has meanwhile had accepted
  (`LateGiveUpAppliesTwice`); one that hands its command over late does so with no
  entry left to record it in (`LateAcceptAppliesTwice`). Either way the actor
  applies a command nothing remembers, and a retry applies it again.
  - In every run whatever, each effect of an operation is on record, had its record
    evicted, or was a success the actor reached with no entry present
    (`EffectsAreAccountedFor`); so effects and records agree if and only if there
    was no such success (`AccountedExactly`).
  - Records, commands and effects stay in step over a whole run if and only if each
    hand-over found its operation reserved and each giving up found it not accepted
    (`AlwaysOwnedExactly`), which a dispatcher can look up before it acts. Acting
    before the reservation's own deadline is enough (`OnTimeRunsAreClear`).
- **Stop is final.** A Stop of a completed turn that is answered by its retained
  context fence is acknowledged with success but leaves the last request in
  memory, so a recovery can run the turn again (`CompletedTurnRevivesAfterStop`).
  A stopped turn is revivable without a new start exactly when the fence answered
  its Stop (`StoppedTurnRevivableExactly`).

Three facts about components, none of which the running system meets as a failure:

- A retired-operation ledger alone can evict a tombstone of a snapshot that fills it
  while refreshing it (`RefreshCanLoseTombstone`). A registry holds at most 1,024
  operations and the ledger 4,096, so a snapshot is always wholly retained
  (`SmallSnapshotSurvives`).
- A runtime generation that has reached the last 64-bit number no longer identifies
  its bindings (`SaturatedGenerationIsShared`).
- An accepted storage key is not the only spelling of its path
  (`DoubledSlashIsAnAlias`).

## Model

| member | source | states |
|---|---|---|
| `ControlRegistry.Normalized` | crates/agent/src/lib.rs:731-745 | configured timeouts and capacity end up within the fixed bounds, and settings already within them are kept |
| `ControlRegistry.ControlOperationRegistry.WithConfig` | crates/agent/src/lib.rs:1471-1480 | a new registry is empty, valid and carries the clamped settings |
| `ControlRegistry.ControlOperationRegistry.EvictUntilRoom` | crates/agent/src/lib.rs:1540-1576 | the eviction loop frees exactly the entries its specification names, or stops at a table of live reservations |
| `ControlRegistry.ControlOperationRegistry.BeginAt` | crates/agent/src/lib.rs:1496-1589 | admission in place agrees with the admission function, in answer and in the whole new table |
| `ControlRegistry.ControlOperationRegistry.MarkEnqueuedAt` | crates/agent/src/lib.rs:1595-1616 | only a live reservation of this generation becomes accepted, with a fresh acknowledgement deadline |
| `ControlRegistry.ControlOperationRegistry.AbandonPending` | crates/agent/src/lib.rs:1618-1629 | a pending entry of this generation, whoever owns it, is removed from table and order |
| `ControlRegistry.ControlOperationRegistry.Complete` | crates/agent/src/lib.rs:1675-1698 | the recorded outcome is returned; a first completion is recorded and becomes the newest entry |
| `ControlRegistry.ControlOperationRegistry.DropExpiredReservations` | crates/agent/src/lib.rs:1631-1649 | expired reservations leave table and order, nothing else does |
| `ControlRegistry.ControlOperationRegistry.ReadGate` | crates/agent/src/lib.rs:1650-1673 | visiting the values in an arbitrary order gives the specified gate |
| `ControlRegistry.ControlOperationRegistry.RetirementGate` | crates/agent/src/lib.rs:1631-1673 | the gate of the table without expired reservations, and that table is the new one |
| `ControlRegistry.ControlOperationRegistry.RetirementSnapshot` | crates/agent/src/lib.rs:1725-1778 | every entry once, in order, with its retirement status |
| `ControlRegistry.GateOverMeans` | crates/agent/src/lib.rs:1650-1673 | fence if an accepted deadline has passed, else wait for the minimum live deadline, else ready |
| `ControlRegistry.GateIsOrderFree` | crates/agent/src/lib.rs:1650-1673 | the gate's meaning determines its answer, so iteration order cannot matter |
| `ControlRegistry.PrunedKeepsValid` | crates/agent/src/lib.rs:1631-1649 | dropping expired reservations keeps order and table in agreement |
| `RegistryLaws.OrderCounts` | crates/agent/src/lib.rs:1444-1447 | in a consistent table the order lists as many operations as the table holds |
| `RegistryLaws.MakeRoomOnce` | crates/agent/src/lib.rs:1540-1576 | making room evicts nothing from a table with a free slot and exactly one entry from a full one, the oldest completed or expired reservation |
| `RegistryLaws.AdmissionDecision` | crates/agent/src/lib.rs:1496-1575 | if and only if, for each answer: already completed, already pending, saturated, accepted deadline exceeded |
| `RegistryLaws.RefusalChangesNothing` | crates/agent/src/lib.rs:1496-1575 | every refused admission leaves the table as it was |
| `RegistryLaws.FreshAdmission` | crates/agent/src/lib.rs:1540-1589 | a fresh admission evicts at most one other entry, the oldest evictable one, only when full, and keeps all others |
| `RegistryLaws.BeginKeepsValid` | crates/agent/src/lib.rs:1496-1589 | admission keeps the table consistent |
| `RegistryLaws.MarkKeepsValid` | crates/agent/src/lib.rs:1595-1616 | accepting keeps the table consistent |
| `RegistryLaws.AbandonKeepsValid` | crates/agent/src/lib.rs:1618-1629 | abandoning keeps the table consistent |
| `RegistryLaws.CompleteKeepsValid` | crates/agent/src/lib.rs:1675-1698 | completing keeps the table consistent |
| `RegistryLaws.FirstOutcomeWins` | crates/agent/src/lib.rs:1675-1714 | the first recorded outcome answers every later completion |
| `RegistryLaws.OtherGenerationIsInert` | crates/agent/src/lib.rs:1595-1714 | calls carrying another generation change nothing and see no outcome, at any time |
| `RegistryLaws.BeginEffect` | crates/agent/src/lib.rs:1496-1589 | admission adds at most the named reservation, keeps or evicts others, and answers from the record only what the record says |
| `RegistryRuns.StepIsLocal` | crates/agent/src/lib.rs:1496-1698 | only the operation a call names gains or changes an entry |
| `RegistryRuns.StepKeepsOrderSorted` | crates/agent/src/lib.rs:1444-1447 | every call keeps the order sorted by last admission or completion |
| `RegistryRuns.RunKeepsTrace` | crates/agent/src/lib.rs:1496-1698 | table, order, stamps and entry dates stay consistent over every run |
| `RegistryRuns.TableStaysConsistent` | crates/agent/src/lib.rs:1444-1447 | after any run the order is duplicate-free, matches the table, fits the capacity and is sorted |
| `RegistryRuns.SaturationIsRecent` | crates/agent/src/lib.rs:93-94 | saturation means every slot is pending and entered its state within the last 120 seconds |
| `ControlProtocol.CompleteEffect` | crates/agent/src/lib.rs:1675-1698 | completing touches one pending entry of its own generation and returns the recorded outcome |
| `ControlProtocol.AcknowledgeKeepsInv` | crates/agent/src/lib.rs:1795-1859 | an acknowledgement sends the recorded outcome if there is one and records its own otherwise |
| `ControlProtocol.StepKeepsInv` | crates/agent/src/lib.rs:2000-2118 | every step of callers, dispatchers, mailbox and actor keeps the invariant |
| `ControlProtocol.RunKeepsInv` | crates/agent/src/lib.rs:2000-2118 | so does every run |
| `ControlProtocol.AppliedAtMostOncePerEntry` | crates/agent/src/lib.rs:1795-1859 | in any interleaving an operation takes effect at most once while its entry is present, and then the entry records success |
| `ControlDelivery.SuccessIsNeverReadmitted` | crates/agent/src/lib.rs:1496-1535 | a recorded success is never admitted again |
| `ControlDelivery.FirstOutcomeIsFinal` | crates/agent/src/lib.rs:1700-1714 | over any run, every later delivery or retry of a recorded operation is answered with the first outcome and not applied again while the entry is present |
| `ControlDelivery.AcceptedLeavesExactlyBy` | crates/agent/src/lib.rs:1595-1698 | an accepted command leaves that state exactly by completion or by some dispatcher of the same operation giving up |
| `ControlDelivery.StepAnswersExactly` | crates/agent/src/lib.rs:1795-1859 | every step sends exactly the answers the record calls for: a retry of a recorded success, a delivered or refused command with an outcome on record, or the actor's own result; a delivered command runs if and only if nothing is on record |
| `ControlDelivery.AnswerHasItsKind` | crates/agent/src/lib.rs:1806-1859 | an answer is of the kind its caller asked for: the recorded one if it fits, a rejection otherwise |
| `ReservationOwnership.ExcessGrowsExactly` | crates/agent/src/lib.rs:1675-1698 | whatever dispatchers do, one action adds an effect that is neither on record nor evicted if and only if the actor succeeds at an operation with no entry |
| `ReservationOwnership.EffectsAreAccountedFor` | crates/agent/src/lib.rs:1795-1859 | conservation over every run: effects are those on record, those evicted and the unrecorded successes |
| `ReservationOwnership.AccountedExactly` | crates/agent/src/lib.rs:1675-1698 | from the start, effects equal records plus evictions if and only if no success went unrecorded |
| `ReservationOwnership.AcceptMatchedExactly` | crates/agent/src/lib.rs:2050-2051 | handing a command over keeps accepted entries and unanswered commands one to one if and only if its operation is reserved |
| `ReservationOwnership.GiveUpMatchedExactly` | crates/agent/src/lib.rs:1618-1629 | giving up keeps them one to one if and only if the entry on record is not accepted |
| `ReservationOwnership.GiveUpLosesExactly` | crates/agent/src/lib.rs:1618-1629 | in any reachable table, giving up discards an accepted command if and only if the entry on record for its operation is accepted |
| `ReservationOwnership.MatchedExactly` | crates/agent/src/lib.rs:2000-2118 | any action keeps them one to one if and only if it is clear: no other party's action can break it |
| `ReservationOwnership.OwnedExactly` | crates/agent/src/lib.rs:2000-2118 | records, commands and effects stay in step over an action if and only if it is clear |
| `ReservationOwnership.AlwaysOwnedExactly` | crates/agent/src/lib.rs:2000-2118 | they stay in step before and after every action of a run if and only if every action of it is clear |
| `ReservationOwnership.ClearDispatchAppliesOnce` | crates/agent/src/lib.rs:2013-2051 | in a clear run from the start, effects equal records plus evictions, and accepted entries and unanswered commands correspond one to one |
| `ReservationOwnership.ClearDispatchKeepsAccepted` | crates/agent/src/lib.rs:2091-2109 | a clear action takes an accepted command out of that state only by completing it |
| `ReservationOwnership.OnTimeRunsAreClear` | crates/agent/src/lib.rs:2013-2051 | acting before the reservation's own deadline makes a whole run clear |
| `ReservationOwnership.PunctualDispatchAppliesOnce` | crates/agent/src/lib.rs:2013-2118 | punctual dispatch never applies an operation twice unless its recorded success was evicted in between |
| `LateDispatch.LateGiveUpAppliesTwice` | crates/agent/src/lib.rs:2013-2051 | a concrete run in which giving up late makes one start take effect twice with nothing evicted |
| `LateDispatch.LateAcceptAppliesTwice` | crates/agent/src/lib.rs:2050-2051 | another in which handing over late does, with nobody giving up |
| `RetiredLedger.RetiredControlOperationRegistry.RecordSnapshot` | crates/agent/src/lib.rs:2488-2510 | recording in place agrees with the ledger function |
| `RetiredLedger.RecordOneShape` | crates/agent/src/lib.rs:2488-2510 | one tombstone becomes the newest; at most the oldest other one is dropped |
| `RetiredLedger.RecordKeepsConsistent` | crates/agent/src/lib.rs:2488-2510 | order and map agree and stay within capacity over any snapshot |
| `RetiredLedger.SmallSnapshotSurvives` | crates/agent/src/lib.rs:718-719 | a snapshot smaller than the ledger is wholly retained, newest, in order |
| `RetiredLedger.SnapshotSurvivesExactly` | crates/agent/src/lib.rs:2488-2510 | if and only if, for every snapshot, when its own recording keeps all of it |
| `RetiredLedger.FreshSnapshotSurvivesExactly` | crates/agent/src/lib.rs:2488-2510 | operations without a tombstone all get one if and only if they fit in the ledger |
| `RetiredLedger.OthersOnlyAge` | crates/agent/src/lib.rs:2488-2510 | recording a snapshot leaves every other tombstone as it was or drops it, oldest first |
| `RetiredLedger.RefreshCanLoseTombstone` | crates/agent/src/lib.rs:2488-2510 | refreshing a full-capacity snapshot can evict one of its own tombstones |
| `ActorOwnership.StepKeepsInv` | crates/agent/src/lib.rs:4456-4560 | every await-delimited step of ensure, fence, remove and retire keeps the ownership invariant; what each step takes out or creates is fixed by the `ActorFencing` rows |
| `ActorOwnership.RunKeepsInv` | crates/agent/src/lib.rs:3107-3174 | so does every interleaving |
| `ActorOwnership.AtMostOneActorPerThread` | crates/agent/src/lib.rs:3107-3174 | at most one actor of a thread is unjoined |
| `ActorOwnership.GenerationsNeverReused` | crates/agent/src/lib.rs:3107-3174 | an actor created later has a larger generation than every earlier one |
| `ActorOwnership.OldGenerationIsHarmless` | crates/agent/src/lib.rs:4565-4652 | a fence or retirement carrying one generation never removes or aborts an actor of another |
| `ActorOwnership.JoinedActorLeavesExactTombstones` | crates/agent/src/lib.rs:4482-4497 | after a join every operation left in the registry has a tombstone, the outcome recorded by join time or else reconciliation required; every other tombstone is unchanged or dropped, oldest first |
| `ActorFencing.FenceTakesOutExactly` | crates/agent/src/lib.rs:4456-4481 | a fence takes the actor out, aborts it and records first tombstones if and only if the thread still runs that generation; otherwise only the lock changes |
| `ActorFencing.RemovalTakesOutExactly` | crates/agent/src/lib.rs:4515-4526 | a removal takes out whatever actor the thread has, and otherwise goes on or gives the lock back |
| `ActorFencing.RetirementTakesOutExactly` | crates/agent/src/lib.rs:4565-4634 | a retirement takes the actor out if and only if the thread still runs that generation, no other turn is active, and nothing is pending within its deadline or the waiting time is over; while it waits it only drops lapsed reservations |
| `ActorFencing.EnsureSpawnsExactly` | crates/agent/src/lib.rs:3107-3137 | an ensure spawns if and only if the thread has no actor, replaces if and only if the actor has ended in the same workspace, and otherwise changes only the lock |
| `ActorFencing.SpawnStartsAfresh` | crates/agent/src/lib.rs:3139-3162 | a spawn takes the next generation, with a live task and an empty registry, and touches no other |
| `ActorFencing.TakenOutIsRetired` | crates/agent/src/lib.rs:4482-4497 | whatever happens in between, a call that took an actor out gives the lock back only when the actor is joined and each operation left has its tombstone |
| `ActorFencing.FenceRetiresExactly` | crates/agent/src/lib.rs:4456-4501 | by the time a fence gives the lock back the generation is aborted, joined and buried if the thread was running it, and otherwise no handle has changed |
| `ActorFencing.RemovalRetiresExactly` | crates/agent/src/lib.rs:4503-4560 | a removal has retired whatever actor the thread had, and no other handle has changed |
| `ActorFencing.RetirementRetiresOrLeaves` | crates/agent/src/lib.rs:4565-4650 | one pass of a retirement retires that generation or leaves every handle as it was |
| `ActorFencing.EnsureRegistersExactly` | crates/agent/src/lib.rs:3107-3173 | an absent actor is registered, an ended one of the same workspace joined and replaced, both under the next generation; one of another workspace, or one that is live when looked at, is left alone |
| `ActorFencing.QueryAnswersExactly` | crates/agent/src/lib.rs:4247-4275 | a status query reads the live registry, then the tombstones, and fails if and only if the thread has no actor and the operation no tombstone |
| `ActorFencing.RetiredOperationIsAnswered` | crates/agent/src/lib.rs:4247-4275 | after a fence or removal a query for any operation left in the retired registry gives its outcome or a demand for reconciliation, never pending |
| `ExecutionWindows.TurnExecutionUsageCounters.ObserveCheckpointPayload` | crates/agent/src/lib.rs:1228-1270 | observing a checkpoint in place agrees with the counter function |
| `ExecutionWindows.TotalIsTheMaximum` | crates/agent/src/lib.rs:1228-1233 | the window total is the maximum of its start and every delivered index |
| `ExecutionWindows.CountersAreTheSaturatingFold` | crates/agent/src/lib.rs:1228-1270 | for any deliveries the counters are the fold over left-to-right maxima: sums cut off at the 64-bit maximum, sticky unknown flag, trailing no-progress run |
| `ExecutionWindows.StaleDeliveryIsInert` | crates/agent/src/lib.rs:1228-1231 | a repeated or overtaken checkpoint anywhere in a delivery sequence changes nothing |
| `ExecutionWindows.DecisionNamesFirstReachedLimit` | crates/agent/src/agent_loop.rs:65-148 | the budget continues if and only if no limit is reached, with the next index, and otherwise names the first reached limit with the windows and calls used |
| `ExecutionWindows.RefusalNamesFirstReachedLimit` | crates/agent/src/agent_loop.rs:173-192 | a recovery is refused if and only if it carries a checkpoint that has reached a limit, and the first one is named |
| `ExecutionWindows.MonotoneBlockIsNeverLifted` | crates/agent/src/agent_loop.rs:69-116 | a window, tool-call or wall-clock block survives every later delivery |
| `ExecutionWindows.SoftBlockLiftedExactly` | crates/agent/src/agent_loop.rs:117-148 | if and only if, when one more delivery lifts a token or no-progress block |
| `ExecutionWindows.ActiveTurnRequest.ApplyRecoveryAdjustments` | crates/agent/src/manager_recovery.rs:5-50 | adjusting a request in place agrees with the adjustment function, whose effect on each field is `TurnTotals.HandoverChangesOnly` |
| `ExecutionWindows.AdjustmentIsIdempotent` | crates/agent/src/manager_recovery.rs:5-50 | applying a recovery twice is applying it once; it never lowers the window index, and the announced index is the request's own |
| `ExecutionWindows.HandoverKeepsBound` | crates/agent/src/agent_loop.rs:784-866 | a continuation or recovery keeps the index within the limit, and a continuation strictly uses up a window |
| `ExecutionWindows.TurnStaysWithinItsWindows` | crates/agent/src/agent_loop.rs:784-866 | over any run of them the index never passes the limit and grows by at least the number of continuations |
| `ExecutionWindows.ContinuationsAreBounded` | crates/tools/src/loop_guard.rs:131-157 | a turn begun without a checkpoint is continued fewer times than the limit |
| `ExecutionWindows.NoProgressEndsInBlock` | crates/agent/src/lib.rs:1263-1284 | after as many fresh no-progress windows as the limit the budget blocks |
| `ExecutionWindows.IdleRunsAreShort` | crates/agent/src/agent_loop.rs:130-145 | no accepted run holds that many consecutive no-progress continuations |
| `TurnTotals.MeasuresAgree` | crates/agent/src/lib.rs:1228-1270 | a window contributes its tool calls, the time from start to completion when both are known and in order, its window tokens or else its budget tokens; it is idle if it ran no round and no tool and ended on a provider failure or a shutdown |
| `TurnTotals.DeliveriesAreAccounted` | crates/agent/src/lib.rs:1228-1270 | however checkpoints are delivered the counters are those sums over the left-to-right maxima, cut off at the 64-bit maximum |
| `TurnTotals.HandoverChangesOnly` | crates/agent/src/manager_recovery.rs:5-50 | field by field: a continuation changes history, checkpoint, usage and hint only; a recovery drops images and MCP capabilities if and only if its own flag asks, overrides the model if it names one, and sets its options |
| `TurnTotals.RunCarriesTheRequest` | crates/agent/src/agent_loop.rs:784-866 | over any accepted run the turn is the same, images and MCP capabilities are gone if and only if some recovery disabled them, nothing else is, and model and history are the last ones named |
| `TurnTotals.TurnIsMetered` | crates/agent/src/agent_loop.rs:789-800 | over any accepted run the usage is the sum of every window reported since the last restored checkpoint on top of that checkpoint, and stays below each limit it began below |
| `TurnTotals.FreshTurnUsesWhatItReported` | crates/agent/src/agent_loop.rs:789-800 | a turn begun without a checkpoint has used exactly what its windows reported, and the sums of tool calls, time and known tokens are below their limits |
| `TurnTotals.ContinuationAcceptedExactly` | crates/agent/src/agent_loop.rs:65-148 | one more continuation is accepted if and only if its window is not the last, the sums with its own report are below their limits, and so is the run of idle windows |
| `TurnTotals.ContinuationOpensTheNextWindow` | crates/agent/src/agent_loop.rs:800-866 | after a continuation the window is the one after the reported window and the checkpoint is its report |
| `DurablePublish.PublishLoopEvent` | crates/agent/src/agent_loop.rs:2222-2316 | the retry loop returns what the first deciding attempt decides, which `DurablePublish.FirstConclusionDecides` reads off the replies, and never a cancellation without a token |
| `DurablePublish.FirstConclusionDecides` | crates/agent/src/agent_loop.rs:2222-2316 | if and only if, for each outcome: the first attempt that is committed, superseded, permanently rejected or cancelled; pending if and only if every attempt timed out or was refused for now and none was cancelled |
| `DurablePublish.PublicationIsOneAnswer` | crates/agent/src/agent_loop.rs:318-384 | however many attempts it takes, a publication comes to one answer and one race of the loop's model |
| `DurablePublish.TerminalPublicationIsOneAnswer` | crates/agent/src/agent_loop.rs:386-394 | a terminal publication, which takes no token, comes to one answer |
| `DurablePublish.EveryAnswerIsPublished` | crates/agent/src/agent_loop.rs:2222-2316 | and every answer and race of the model is what some publication comes to, after any number of transient failures |
| `AgentLoop.NothingAfterExit` | crates/agent/src/agent_loop.rs:462-462 | a loop that has left handles nothing more |
| `AgentLoopActor.AgentLoopActor.HandleSupersession` | crates/agent/src/agent_loop.rs:328-344 | a durable supersession joins, observes an interruption and forgets the turn |
| `AgentLoopActor.AgentLoopActor.CommitEventUnlessCancelled` | crates/agent/src/agent_loop.rs:369-384 | a cancellable commit logs, supersedes or leaves the loop as specified |
| `AgentLoopActor.AgentLoopActor.CommitTerminalEvent` | crates/agent/src/agent_loop.rs:386-420 | terminal effects are prepared, then the terminal event committed |
| `AgentLoopActor.AgentLoopActor.OnStartTurn` | crates/agent/src/agent_loop.rs:500-642 | StartTurn in place agrees with its specification |
| `AgentLoopActor.AgentLoopActor.OnTaskFinished` | crates/agent/src/agent_loop.rs:643-1102 | TurnTaskFinished in place agrees with its specification; the terminal event it commits is the one its result calls for, and with every publication accepted it is committed and its status observed |
| `AgentLoopActor.AgentLoopActor.OnContinuation` | crates/agent/src/agent_loop.rs:705-985 | the continuation branch agrees with its specification; a turn still active carries on with the reported history, the same input, model, capabilities and artifacts, and all usage counted |
| `AgentLoopActor.AgentLoopActor.OnRecoverySucceeded` | crates/agent/src/agent_loop.rs:1103-1124 | RecoveryAttemptSucceeded in place agrees with its specification |
| `AgentLoopActor.AgentLoopActor.OnCancelTurn` | crates/agent/src/agent_loop.rs:1156-1275 | CancelTurn in place agrees with its specification |
| `AgentLoopActor.AgentLoopActor.OnStartRecovery` | crates/agent/src/agent_loop.rs:1291-1556 | StartRecoveryAttempt in place agrees with its specification |
| `AgentLoopActor.AgentLoopActor.OnStartRestored` | crates/agent/src/agent_loop.rs:1557-1691 | StartRestoredRecoveryTurn in place agrees with its specification |
| `AgentLoopActor.AgentLoopActor.Receive` | crates/agent/src/agent_loop.rs:462-498 | one command, with the preamble for run-bound Stops and the context fence, agrees with its specification, keeps the loop's invariant and commits no terminal event but the one it calls for |
| `AgentLoopActor.AgentLoopActor.RunLoop` | crates/agent/src/agent_loop.rs:462-1713 | the loop over a mailbox agrees with the specification of a run and keeps the loop's invariant |
| `AgentLoopActor.RunAgentLoop` | crates/agent/src/agent_loop.rs:288-1713 | from fresh locals and for any mailbox: the active turn is whole or absent, every terminal event directly follows its own preparation, none is repeated in an activation, no installed recovery succeeds twice, no part was ever missing; each terminal event comes from a delivery that calls for it, and an observed status is that of such an event |
| `AgentLoopLaws.CommitTerminalKeeps` | crates/agent/src/agent_loop.rs:396-420 | a terminal event lands directly after its own preparation, and a cut-off publication still leaves a whole state |
| `AgentLoopLaws.HandleKeepsInv` | crates/agent/src/agent_loop.rs:462-1713 | every command keeps ownership whole, run ids numbered and the log in order |
| `AgentLoopLaws.EveryRunKeepsInv` | crates/agent/src/agent_loop.rs:462-1713 | so does every run from the start |
| `AgentLoopOutcomes.HandleOutcome` | crates/agent/src/agent_loop.rs:462-1713 | a command keeps the active turn, closes it, or launches one fresh run of a request determined by what the loop remembers |
| `AgentLoopTerminals.HandleTells` | crates/agent/src/agent_loop.rs:643-1102 | a command commits at most one terminal event, the one its result, Stop or failed hand-off calls for, for the current turn and run; with every publication accepted it is committed and its status observed |
| `AgentLoopTerminals.EveryTerminalHasItsDelivery` | crates/agent/src/agent_loop.rs:643-1275 | over any run every terminal entry has its delivery, for its own turn and run: completed from a finished task, provider failure from a provider failure, blocked from a blocked task or a reached limit, failed from a failure, a lost provider or a failed hand-off, interrupted from a Stop that reached the turn |
| `AgentLoopTerminals.EveryVerdictIsLogged` | crates/agent/src/agent_loop.rs:643-1275 | and every delivery that calls for a terminal event has it in the log for good, if its publications are accepted |
| `AgentLoopTerminals.CommandLaunchesExactly` | crates/agent/src/agent_loop.rs:500-1691 | with publications accepted a run is launched if and only if a start, restored start, recovery or continuation meets its conditions |
| `AgentLoopLog.LogGrowsExactly` | crates/agent/src/agent_loop.rs:462-1713 | with publications accepted the log grows by exactly the entries a command commits, in order: the announced window, the block, the preparation, the terminal event and the recovery reported |
| `AgentLoopAnswers.AnswersAreTruthful` | crates/agent/src/agent_loop.rs:500-1691 | a caller is told of success if and only if its command took effect, of a start with the run it started; whatever is refused or answered from the record changed nothing |
| `AgentLoopAnswers.RefusalsAreExplained` | crates/agent/src/agent_loop.rs:500-1691 | if and only if, for each refusal: no active turn, another turn or run, an attempt not running; a budget refusal names the first limit reached |
| `AgentLoopAnswers.ObserverLearnsTheState` | crates/agent/src/agent_loop.rs:1276-1290 | an observer learns that its turn is in progress, or how it ended if it was the last to end, and nothing changes |
| `AgentLoopAnswers.ObservedStatusIsLogged` | crates/agent/src/agent_loop.rs:643-1275 | over any run an observed completed, failed or blocked status is that of a terminal entry of the log for the same turn |
| `AgentLoopAnswers.LoopIsLeftExactly` | crates/agent/src/agent_loop.rs:1692-1713 | a shutdown leaves the loop once its task has ended, a durable rejection if and only if it is about the current turn and run |
| `AgentLoopRuns.ActiveTurnIsAllOrNothing` | crates/agent/src/agent_loop.rs:328-344 | at every boundary the active turn's parts are all present and agree with the control plane, or all absent; no lost-snapshot or missing-request branch is ever taken |
| `AgentLoopRuns.TerminalEventsAreUniqueAndPrepared` | crates/agent/src/agent_loop.rs:396-420 | each activation commits at most one terminal event, and each directly follows the preparation for its own turn, run and activation |
| `AgentLoopRuns.RecoverySucceedsAtMostOnce` | crates/agent/src/agent_loop.rs:684-690 | each installed recovery attempt is reported succeeded at most once |
| `AgentLoopRuns.RunIdsUniqueExactly` | crates/agent/src/agent_loop.rs:600-601 | run ids are unique if and only if no more than 2^64-1 have been issued |
| `AgentLoopRuns.ReplacedRunNeverReturns` | crates/agent/src/agent_loop.rs:649-659 | a replaced run is never current again |
| `AgentLoopRuns.MessageFromReplacedRunIsInert` | crates/agent/src/agent_loop.rs:463-473 | however late, a completion, recovery success, rejected start or run-bound Stop of a replaced run changes nothing but its own answer |
| `AgentLoopRuns.StepKeepsSystemInv` | crates/agent/src/agent_loop.rs:1715-1950 | callers posting, flows reporting or ending and the loop receiving keep the joint invariant |
| `AgentLoopRuns.AtMostOneFlow` | crates/agent/src/agent_loop.rs:1459-1556 | in every interleaving at most one turn flow is running, the current one while the loop runs |
| `AgentLoopStops.ForgottenTurnStaysForgotten` | crates/agent/src/agent_loop.rs:1291-1390 | no completion or in-memory recovery revives a forgotten turn before a new or restored start of it |
| `AgentLoopStops.InterruptionForgets` | crates/agent/src/agent_loop.rs:1248-1274 | a turn newly observed as interrupted is forgotten |
| `AgentLoopStops.AcceptedStopForgetsExactly` | crates/agent/src/agent_loop.rs:1156-1275 | an accepted Stop forgets its turn if and only if the context fence did not answer it |
| `AgentLoopStops.StoppedTurnRevivableExactly` | crates/agent/src/agent_loop.rs:1168-1175 | a stopped turn can run again without a new start if and only if the context fence answered its Stop |
| `AgentLoopStops.CompletedTurnRevivesAfterStop` | crates/agent/src/agent_loop.rs:475-498 | such a Stop exists: a turn that completed with a context session |
| `AgentLoopWindows.LaunchIsHandover` | crates/agent/src/agent_loop.rs:1301-1556 | a launch that is not a start hands the remembered request over as a continuation or an admitted recovery |
| `AgentLoopWindows.HandleKeepsWindows` | crates/agent/src/agent_loop.rs:784-866 | every well-formed command keeps the remembered request within its windows and never lowers its index |
| `AgentLoopWindows.EveryRunStaysWithinWindows` | crates/agent/src/agent_loop.rs:173-192 | over any run of the loop no request passes the window limit of its turn |
| `AgentLoopWindows.IdleStreaksAreShort` | crates/agent/src/agent_loop.rs:130-145 | over any run of the loop, windows opened after one without progress never follow each other as often as the limit |
| `AgentLoopTotals.EveryRunIsTraced` | crates/agent/src/agent_loop.rs:462-1713 | over any run what the loop remembers is what the launched handovers make of the request the last start launched |
| `AgentLoopTotals.EveryTurnIsMetered` | crates/agent/src/agent_loop.rs:789-800 | so over any run the remembered request carries what its turn began with, counts every window reported since the last restored checkpoint, and stays below the limits it began below |
| `AgentLoopTotals.StartBeginsWithItsInput` | crates/agent/src/agent_loop.rs:500-642 | a launched start begins with the caller's input, model, capabilities, artifacts and history, and with nothing used |
| `AgentLoopTotals.RestoredBeginsWithItsRecord` | crates/agent/src/agent_loop.rs:1557-1691 | a launched restored turn begins with its stored input, adjusted as its recovery asks |
| `AgentLoopTotals.ContinuationHandsOver` | crates/agent/src/agent_loop.rs:784-866 | a turn still active after a continuation has exactly the request handed over |
| `RuntimeHistory.NativeRuntimeDependencies.Update` | crates/agent/src/lib.rs:2648-2664 | an update in place agrees with its specification, including the trimming loop |
| `RuntimeHistory.NativeRuntimeDependencies.TerminalRuntimeSnapshotFor` | crates/agent/src/lib.rs:2680-2698 | the lookup loop agrees with its specification; the current or an unknown generation gives the hooks, task provider and cleanup contract bound now, a past one its entry |
| `RuntimeHistory.NativeRuntimeDependencies.Snapshot` | crates/agent/src/lib.rs:2700-2733 | the snapshot and the plan it may capture, as specified |
| `RuntimeHistory.HistoryIsTheLogsTail` | crates/agent/src/lib.rs:2648-2664 | in every run the bounded history is the last 128 generations that entered it, exactly as they were bound; a saturated one enters once |
| `RuntimeHistory.LookupAgreesWithTheLog` | crates/agent/src/lib.rs:2680-2698 | in every run a past generation still in the history is looked up with the hooks, task provider and cleanup contract it was bound with, and any other, the saturated one included, with those bound now |
| `RuntimeHistory.SnapshotsOfOneGenerationAgree` | crates/agent/src/lib.rs:2700-2733 | in every run all snapshots between two updates are equal, as are all of one generation below the last number, with a plan if and only if an interrupted turn would dispatch hooks |
| `RuntimeHistory.SaturatedGenerationIsShared` | crates/agent/src/lib.rs:2648-2664 | at the last number two snapshots can share a generation and differ |
| `BlobKeys.ValidateStorageKey` | crates/artifacts/src/local_blob_store.rs:503-549 | the component loop agrees with the key specification, error for error |
| `BlobKeys.HashIsAPrintedDigest` | crates/artifacts/src/ids.rs:57-62 | the accepted hashes are exactly the printed 32-byte digests |
| `BlobKeys.WorkspaceIsOneComponent` | crates/artifacts/src/ids.rs:8-23 | an accepted workspace is its own single path component; it is refused if and only if it is empty or has another character, each with its error |
| `BlobKeys.PrintedKeyIsAccepted` | crates/artifacts/src/ids.rs:53-55 | printing then validating gives back the digest's path |
| `BlobKeys.AcceptedKeyIsCanonical` | crates/artifacts/src/local_blob_store.rs:534-549 | every accepted key names the canonical path of one digest and reprints as its key |
| `BlobKeys.OnePathPerHash` | crates/artifacts/src/local_blob_store.rs:503-549 | accepted keys share a path if and only if they name the same digest |
| `BlobKeys.DoubledSlashIsAnAlias` | crates/artifacts/src/local_blob_store.rs:511-512 | a second accepted spelling of the same path |
| `BlobKeys.BlobPathsAreDistinct` | crates/artifacts/src/local_blob_store.rs:56-73 | keys of a digest land on its path and nowhere else, and never on a staging file |
| `BlobKeys.HashPathInjective` | crates/artifacts/src/local_blob_store.rs:49-66 | different workspaces or digests never share a path |
| `BlobStore.LocalArtifactBlobStore.HashFile` | crates/artifacts/src/local_blob_store.rs:551-580 | hashing in any portions is hashing the whole file |
| `BlobStore.LocalArtifactBlobStore.VerifyExistingBlob` | crates/artifacts/src/local_blob_store.rs:461-501 | an existing file is confirmed if and only if it has the length and digest of the bytes; a different length is reported without a digest, a different digest with it |
| `BlobStore.LocalArtifactBlobStore.Stage` | crates/artifacts/src/local_blob_store.rs:238-306 | any chunking stages, hashes and counts exactly the input |
| `BlobStore.LocalArtifactBlobStore.PutBytes` | crates/artifacts/src/local_blob_store.rs:218-359 | refines the abstract put for buffers and chunked files and answers for the file it found; an I/O failure changes nothing; no staging file survives |
| `BlobStore.LocalArtifactBlobStore.PutBytesGuarded` | crates/artifacts/src/local_blob_store.rs:78-184 | refines the same abstract put for buffers and answers for the file it found, and refuses anything else |
| `BlobStore.PutAnswersForTheStoredFile` | crates/artifacts/src/local_blob_store.rs:127-184 | on every store: success if and only if the path is free or its file has the length and digest of the bytes, corrupt with or without a digest otherwise; success carries digest, size and key, and deduplicated if and only if the path existed; nothing is written over |
| `BlobStore.LocalArtifactBlobStore.DeleteUnreferenced` | crates/artifacts/src/local_blob_store.rs:398-406 | the key's file is gone, already absent or not; a bad key changes nothing |
| `BlobStore.EveryRunIsContentAddressed` | crates/artifacts/src/local_blob_store.rs:218-359 | in every run of puts and deletes each stored file has the digest its path names |
| `BlobStore.ContentAddressedStoreIsNeverCorrupt` | crates/artifacts/src/local_blob_store.rs:461-501 | such a store never reports a digest mismatch, and a put never changes another file |
| `BlobStore.DeleteUndoesPut` | crates/artifacts/src/local_blob_store.rs:398-406 | deleting a just stored blob by its printed key restores the files |
| `BlobGuard.StepKeepsGuardedUnlinks` | crates/artifacts/src/blob_mutation.rs:13-70 | a pending unlink always holds a clone of the guard, its key is unreferenced, and whoever owns the guard waits for it |
| `BlobGuard.StepKeepsInv` | crates/artifacts/src/blob_store.rs:91-131 | every step of ingests, collectors, jobs and leaving callers keeps the invariant |
| `BlobGuard.NoReferenceEverDangles` | crates/artifacts/src/gc.rs:157-179 | in every interleaving no key named by a committed reference lacks its file |
| `BlobGuard.QuietWorkspaceStaysSound` | crates/artifacts/src/blob_mutation.rs:13-70 | from a workspace where nobody is at work, whoever comes, leaves or fails, every committed reference has its file |
| `BlobGuard.OnlyUnreferencedFilesVanish` | crates/artifacts/src/local_blob_store.rs:186-208 | a file disappears only by an unlink of a key nothing references at that moment |
| `BlobGuardAlone.CollectorAloneCollects` | crates/artifacts/src/gc.rs:157-179 | a collector alone gets through to the unlink if and only if nothing references the key, removes that file only, and leaves the guard free |
| `BlobGuardAlone.IngestAloneRegisters` | crates/artifacts/src/local_blob_store.rs:78-184 | an ingest alone leaves the file there with one more reference and the guard free |
| `BlobGuardAlone.FailedIngestLeavesNoTrace` | crates/artifacts/src/service.rs:1560-1583 | an ingest whose registration fails leaves the files and references exactly as they were: its own new file goes, one it found stays |
| `BlobGc.Collector.ExecuteGc` | crates/artifacts/src/gc.rs:157-179 | the pass over a plan agrees with its specification and counts the deleted rows |
| `BlobGc.CollectsExactlyTheUnowned` | crates/artifacts/src/gc.rs:157-179 | exactly the planned keys nobody owns lose their files, and exactly their rows go |
| `BlobGc.PassIsSafeAndIdempotent` | crates/artifacts/src/gc.rs:157-179 | however stale the plan, owned keys keep their files, and a second pass changes nothing |
| `Notarization.StepKeepsInv` | scripts/packaging/macos-notary.py:74-135 | every action, crash and operator repair keeps disk, memory and external log in agreement |
| `Notarization.SubmittedOnceStapledOnlyIfAccepted` | scripts/packaging/macos-notary.py:82-135 | across any crashes and retries at most one submit happens, and every staple is justified by that submission's acceptance and clean report |
| `Notarization.StapledWasSubmitted` | scripts/packaging/macos-notary.py:82-85 | however the container is replaced between calls, a staple is put only on the container submitted or on what an earlier staple made of it |
| `Notarization.Notary.Notarize` | scripts/packaging/macos-notary.py:74-135 | a call of the script, dying anywhere, takes only steps of the protocol; on success the record names the one submission and the container's final digest |
| `Notarization.Notary.Identify` | scripts/packaging/macos-notary.py:100-114 | an id is reused, or submitted for only after the start was recorded; an uncertain submit is refused |
| `Notarization.Notary.StapleObjects` | scripts/packaging/macos-notary.py:127-135 | the container's digest is recorded after each staple |
| `Packaging.StepKeepsInv` | scripts/packaging/cua-driver.py:404-475 | every action and crash keeps state file, staging and the notarization in agreement |
| `Packaging.StepRetainsSigned` | scripts/packaging/cua-driver.py:413-431 | once signed files are recorded no action discards, re-signs or rewrites them, and only tickets are added |
| `Packaging.SignedStagingIsFinishedOrRefused` | scripts/packaging/cua-driver.py:404-475 | over any crashes and retries every later publication is of exactly the recorded files |
| `Packaging.PublishedOnlyFromSignedFiles` | scripts/packaging/cua-driver.py:487-489 | nothing is submitted or published before its signed files are recorded |
| `Packaging.PublishedWasAccepted` | scripts/packaging/cua-driver.py:413-431 | a publication follows the acceptance of the one submission, and has the submitted files if and only if the submitted archive had the recorded ones, which the script does not compare |
| `Packaging.PublishedFilesWereAccepted` | scripts/packaging/cua-driver.py:456-475 | if nobody touches the archive, every publication has exactly the files that were submitted and accepted |
| `PackagingCompletes.PublishedIsComplete` | scripts/packaging/cua-driver.py:487-499 | nothing is published without its stapled ticket and its manifest |
| `PackagingCompletes.InterruptedStagingIsRebuilt` | scripts/packaging/cua-driver.py:415-475 | a staging interrupted before its signed files were recorded is discarded by the next call with the same inputs, root and archive both, and rebuilt and recorded from scratch |
| `Packaging.Packager.NotarizeArchive` | scripts/packaging/cua-driver.py:487-489 | finishing runs any run of the notarization protocol on the archive, and goes on only from its end |
| `Packaging.Packager.Package` | scripts/packaging/cua-driver.py:382-475 | a call of the script, dying anywhere, takes only steps of the protocol; a publication is of the recorded files |

## Left out

- Reservation holders are history: the code stores no owner, and the model records one only to state who holds a reservation.
- The event hub is one decision per publication. A publication that timed out and is retried is taken to be idempotent, so it appears once in the log or not at all.
- Chat, provider, tool and hook execution: turn flows are nondeterministic producers of messages.
- A direct start that carries an execution checkpoint is not covered by the window bound, because the code makes no budget check on that path; `AgentLoopWindows.WellFormedCommand` says what is assumed of the others.
- The control plane's observation cell, work carriers, metrics and tracing of the loop.
- The 2^64 wrap of actor generations: their counter is unbounded in `ActorOwnership`.
- RetiredLedger.SnapshotSurvivesExactly: for a snapshot that exactly fills the ledger the condition is read off the ledger as it is before the last operation is recorded, not off the one at the start, because it depends on the order in which earlier refreshes evict; the manager never records such a snapshot, and `FreshSnapshotSurvivesExactly` gives the condition at the start for operations without a tombstone.
- Manager calls that are themselves cancelled part way: each ensure, fence, remove and retire call is taken to finish.
- In `Notarization` and `Packaging` equal digests mean equal contents; in `BlobStore` SHA-256 is any function to 64 hex digits; path components follow Unix rules, and file names are taken to be valid text.
- The removal of a staging file on the way out is taken to succeed; the code ignores its failure.
- A cancelled database transaction is taken not to commit later, and every reference is taken to be registered by a process that holds the guard, as the maintenance code assumes of all producers.
- BlobGuardAlone.FailedIngestLeavesNoTrace: models an ingest without an owner identity; one with an identity keeps its file and registers an unbound row for a later collection, because that adds only a row no reference counts.
- BlobGc.Collector.ExecuteGc: models a pass without I/O failures and without the output directories, readable copies, projections and external references the same call prunes, because those add only further independent loops; failures and cancellation of a pass are in `BlobGuard`.
- Retry delays, credentials, log files, the bounded retries of `notarytool` and `stapler`, and the other targets of the packaging script.
- Two calls of the notarization or packaging script at the same time: the scripts take no lock, and one call at a time is modelled.
- Mapping of hooks, post-turn effects, compaction and task observation, which would add only data mapping.
