# Verified model of the WOSM observer and client synchronisation core

WOSM runs agents in git worktrees. An observer process keeps the state of worktrees, sessions and providers; clients
subscribe to its events and load its snapshots over a socket that carries one JSON value per line. This project models
the parts of that system in which several asynchronous parties must agree, and proves what they guarantee.

JavaScript runs to completion, so in the models one transition is the code between two awaits, and a *run* is any
interleaving of transitions: the theorems below quantify over all runs, all arguments and all failures that the
transitions allow. Where the source changes variables in place there is also a class whose methods change the same
variables step by step; every method that is a turn of the program is proved to be the corresponding transition of the
model where that transition is possible, so that the theorems about runs are theorems about the methods. A whole pass
over the spool takes many turns and is proved to be a run of them (`SpoolPass.PassIsARun`); a whole send takes many turns
too, and `HookSender.Sender.Send` has a specification of its own that is not tied to the sender's steps in `HookModel`.

| part | files | what is proved of it |
|---|---|---|
| client runtime | `RuntimeModel`, `RuntimeFrames`, `RuntimeInvariants`, `RuntimeResync`, `RuntimeStream`, `RuntimeTheorems`, `RuntimeReactions`, `ObserverRuntime`, `ClientConnection`, `SafeErrors` | single-flight refresh, resync after every subscription gap, exactly when events are lost, who asks for loads, what every step shows, stop and halt |
| snapshot reducer | `SnapshotReducer`, `ReducerTheorems` | what each event changes and what it leaves alone, which events may be redelivered, and what merging loses |
| harness ingress queue | `IngressModel`, `IngressInvariants`, `IngressTheorems`, `IngressReceipts`, `HarnessIngressQueue`, `CoalesceKeys`, `Sequences` | refinement of an uncoalesced queue, when a report is accepted, tokens, accounting, dedupe memory, drain |
| command queue | `CommandScope`, `CommandModel`, `CommandTheorems`, `CommandOutcomes`, `CommandQueue` | serialisation per scope, what is recorded of a command, no deadlock, drain, shutdown |
| waiting for a command | `EventBus`, `CommandWait`, `CommandWaitOutcomes`, `CommandWaiter` | no waiter sleeps through the end of its command, and what it is told |
| hook delivery | `IngressStore`, `HookSender`, `HookModel`, `HookTheorems`, `HookPublishing`, `SpoolDrain`, `SpoolPass` | exactly-once recording over deliveries, lost answers, spooling, drains and crashes, and what is published |
| observations | `StablePayload`, `Observations` | canonical payload keys, run-length compression of a history |
| framing | `Whitespace`, `NdjsonFraming`, `NdjsonConnection` | round trips for every cutting of the text |
| names | `StableName` | bounds, shape, when a name is left alone, idempotence |

Where the code does less than its comments say, the model follows the code. A lemma gives the exact condition, for every
reachable state, and where it helps another gives a run that shows the difference:

- A load that began before the first snapshot does not protect the events that arrive meanwhile, although the comment
  above `applyEvent` says the initial resync covers them (`RuntimeTheorems.FlightMissesEventsIff`, with the run of
  `RuntimeTheorems.FirstLoadMissesEvents`).
- A stale response can be the final word, although the comment above `requestRefresh` says it never is: the follow-up it
  schedules can fail, and is not repeated (`RuntimeTheorems.FlightMissesEventsIff`, with the run of
  `RuntimeTheorems.FailedFollowUpLosesEvents`).
- A response of `reconcile()` is not itself checked for staleness (`RuntimeTheorems.ReconcileMissesEventsIff`, with the
  run of `RuntimeTheorems.ReconcileMissesEvents`). These three are all the ways in which events are lost
  (`RuntimeTheorems.EventsAreLostIff`).
- A synced subscription whose runtime owes nothing can go on showing `displayOnly` after a load of the runtime's own could
  not connect (`RuntimeTheorems.SyncedShowsConnectedIff`, with the run of `RuntimeTheorems.FailedFollowUpLosesEvents`).
- `start()` takes any held snapshot for connected, also one that a `refresh()` or `reconcile()` brought before any
  subscription was opened (`RuntimeTheorems.StartEntersUntrustedIff`, with the run of
  `RuntimeTheorems.RefreshBeforeStartConnects`).
- `halted` is called terminal but can be overwritten on screen (`RuntimeTheorems.HaltedIsLeftIff`); what does hold is
  that the runtime never reconnects (`RuntimeTheorems.HaltIsNeverReconnected`).
- Commands of one scope serialise by their executions; a handler past its timeout may still be at work beside the next
  one (`CommandTheorems.HandlersOverlapIff`, with the run of `CommandTheorems.TimedOutHandlersDoOverlap`).
- A dispatch that still awaits persistence when `shutdown` has drained the queue starts its command afterwards
  (`CommandTheorems.ShutdownIsFinalIff`).
- A waiter can sleep for good over a finished command when the executor throws between writing the end and publishing it
  (`CommandWaitTheorems.SleepsForGoodIff`, with the run of `CommandWaitTheorems.LostPublishLeavesAWaiterAsleep`).
- A spooled hook can be lost when the observer dies, or a drain gives up, while the file of a rejected record is empty
  between being opened and being written (`HookTheorems.CrashLosesIff`, `HookTheorems.AbandoningLosesIff`, with the run of
  `HookTheorems.CrashDuringRewriteLosesAHook`), and in no other way (`HookTheorems.LostOnlyIfARewriteWasCut`).
- An observer that dies between recording a hook and publishing it never publishes it: the next delivery is a duplicate
  (`HookPublishing.PublishIsLostIff`, `HookPublishing.CrashLosesPublish`). In no other way does a recorded hook stay
  unpublished (`HookPublishing.RecordedIsPublished`).
- The interruption of the ingress worker at the end of a shutdown drops a reason to reconcile that the worker was about to
  pass on (`IngressReceipts.InterruptDropsAReasonIff`).
- Reports whose identifying parts hold different numbers of colons can supersede each other
  (`CoalesceKeys.PartsAgreeIffKeysDo`, `CoalesceKeys.ColonsCanMergeKeys`).
- An observation is compressed into its entity's history only if the query for the latest row finds the row of its run,
  which equal times can prevent (`ObservationTheorems.InputIsCompressedIff`, `ObservationTheorems.TiesAreNotCompressed`).
- Values after a malformed frame are delivered or lost depending on where the chunk ends
  (`NdjsonFraming.ChunksDoNotMatterIff`).

## Model

| member | source | states |
|---|---|---|
| RuntimeTheorems.SingleFlight | packages/client/src/observerRuntime.ts:134-180 | In every run at most one chain load is airborne, requests are answered once, in order and by a load that began after them, at rest nobody is owed an answer, and loads never outnumber requests plus mutations |
| RuntimeTheorems.NoSubscriptionParksUnsynced | packages/client/src/observerRuntime.ts:298-352 | In every running state with an open subscription the subscription is resynced by a load of its own epoch (or trusts the initial snapshot), or its resync is pending, airborne or about to be handled, or the cycle has been told to end; a halted one has had its iterator returned |
| RuntimeTheorems.WaysIntoConnected | packages/client/src/observerRuntime.ts:115-126 | `connected` is entered only by `start()` with a snapshot, or by a loaded flight or reconcile whose starting epoch is the active one |
| RuntimeTheorems.EpochIsNeverReused | packages/client/src/observerRuntime.ts:298-322 | An epoch that is not active any more never becomes active again, over any continuation |
| RuntimeTheorems.ConnectedNeedsASpanningLoad | packages/client/src/observerRuntime.ts:111-126 | Whenever a run enters `connected`, then by `start()` with the trusted initial snapshot, or by `start()` with an untrusted one that was loaded before, or by applying a load that began at some earlier point of the run since which one same epoch was active throughout |
| RuntimeTheorems.StartEntersUntrustedIff | packages/client/src/observerRuntime.ts:354-368 | In every run `start()` enters `connected` without a trusted snapshot if and only if it is the first, comes before any stop, and a snapshot was loaded before it |
| RuntimeTheorems.RefreshBeforeStartConnects | packages/client/src/observerRuntime.ts:354-368 | A run of `refresh()`, its answer and `start()` that is connected with no epoch ever begun and the resync still owed |
| RuntimeTheorems.NoEventIsLost | packages/client/src/observerRuntime.ts:149-180 | At rest after a loaded flight the snapshot is built on a reconcile's response or on the last flight's; in the latter case, if that flight began with a snapshot, every event delivered since it began is reduced on its response |
| RuntimeTheorems.WithoutReconcileNoEventIsLost | packages/client/src/observerRuntime.ts:236-249 | In all runs without `reconcile()`, once a flight that began with a snapshot has settled, the snapshot is that last flight's response with every event reduced that was delivered since it began |
| RuntimeTheorems.OnlyReconcileReplacesTheFlight | packages/client/src/observerRuntime.ts:409-422 | Without `reconcile()` no response other than a flight's or the initial one ever lies under the snapshot |
| RuntimeTheorems.FlightMissesEventsIff | packages/client/src/observerRuntime.ts:149-180 | In every running state a landing flight leaves the runtime at rest with events unaccounted for if and only if no request waits and either its applied response raced an event while nothing was reduced, so that there was no snapshot when it began, or it failed without halting and the response it leaves standing had raced one |
| RuntimeTheorems.FailedFollowUpLosesEvents | packages/client/src/observerRuntime.ts:134-180 | For every event, response and error that is not permanent: a refresh whose response raced the event is followed up once; when the follow-up fails the event is gone from the snapshot, nothing is scheduled, the subscription counts as synced, and `connected` is shown exactly if the error was not a failure to connect |
| RuntimeTheorems.EventsAreLostIff | packages/client/src/observerRuntime.ts:149-180 | In every run a step comes to rest with events unaccounted for, where there were none before, if and only if it is such a flight or such a reconcile |
| RuntimeTheorems.FirstLoadMissesEvents | packages/client/src/observerRuntime.ts:236-241 | For every event and response: an event during the first load leaves no trace and is unaccounted for at rest, and the runtime settles as connected |
| RuntimeTheorems.ReconcileMissesEventsIff | packages/client/src/observerRuntime.ts:409-422 | In every running state an applied reconcile response leaves events unaccounted for at rest if and only if the runtime was at rest already and an event came while the response was on its way |
| RuntimeTheorems.ReconcileMissesEvents | packages/client/src/observerRuntime.ts:414-420 | For every event that asks for no refresh: a reconcile response that raced it replaces the reduced snapshot, the event is unaccounted for at rest, and no load follows |
| RuntimeTheorems.StopFreezesTheView | packages/client/src/observerRuntime.ts:68-78 | After `stop()` was requested the view never changes, whatever lands later |
| RuntimeTheorems.HaltIsNeverReconnected | packages/client/src/observerRuntime.ts:100-109 | After a halt that follows `start()`, `connected` is never entered and no further epoch begins |
| RuntimeTheorems.HaltedIsLeftIff | packages/client/src/observerRuntime.ts:225-231 | A shown `halted` is replaced exactly by a first `start()`, by a managed flight that cannot connect, or by a stream that ends on a connect error while the runtime is active |
| RuntimeTheorems.HaltedIsHonest | packages/client/src/observerRuntime.ts:102-109 | The connection shows `halted` only when the runtime is halted |
| RuntimeTheorems.HaltShows | packages/client/src/observerRuntime.ts:212-221 | The step that halts a started runtime shows `halted` |
| RuntimeTheorems.SyncedShowsItsSnapshot | packages/client/src/observerRuntime.ts:82-126 | In every run a synced subscription shows its snapshot, as `connected` or as `displayOnly` |
| RuntimeTheorems.SyncedShowsConnectedIff | packages/client/src/observerRuntime.ts:200-231 | Over any stretch in which a subscription stays synced, `connected` is still shown if and only if every load of the runtime's own that could not connect was followed by an applied load that spanned the subscription |
| RuntimeReactions.RequestsAreMadeBy | packages/client/src/observerRuntime.ts:134-180 | In every run each step makes exactly these requests: one of a caller for `refresh()`; one of the runtime for an event that changes provider health or asks for a fresh snapshot, delivered on a held snapshot; one for the resync a new epoch owes; one for an applied response that is stale with no request waiting; and none else |
| RuntimeReactions.RequestIsAnswered | packages/client/src/observerRuntime.ts:149-164 | Whatever was asked for at any point has, once the chain rests again, been answered by a load that began after it and has landed |
| RuntimeReactions.EventIsRefreshed | packages/client/src/observerRuntime.ts:246-248 | An event that calls for a refresh, delivered on a held snapshot, is followed by a managed load that began after it and has landed when the chain rests again |
| RuntimeReactions.MutationsAreCounted | packages/client/src/observerRuntime.ts:242-243 | In every run the mutation counter is the number of events delivered on a held snapshot plus that of reconcile responses that came before any stop |
| RuntimeReactions.StaleResponseIsFollowedUpIff | packages/client/src/observerRuntime.ts:165-174 | In every run an applied response is followed up by one more managed request if and only if the snapshot was mutated since the step at which its load began and no request waits |
| RuntimeReactions.RefreshShownIff | packages/client/src/observerRuntime.ts:128-180 | In every run, until stop is requested, a refresh is shown in flight if and only if a load of the chain is airborne |
| RuntimeReactions.ConnectionFollows | packages/client/src/observerRuntime.ts:200-279 | In every run, until stop is requested, each step shows the connection its result calls for: halted on the first permanent error of the stream or any load, a failure with its downtime on a connect error the runtime met on its own account, connected on `start()` with a snapshot or a load that spanned one epoch, and otherwise what was shown; the runtime is halted by permanent errors and by nothing else |
| RuntimeReactions.SnapshotFollows | packages/client/src/observerRuntime.ts:115-126 | In every run, until stop is requested, each step leaves the snapshot of an applied response, the held one with the delivered event reduced on it, or the held one; every delivered event is on record |
| RuntimeReactions.LoadIsManagedIff | packages/client/src/observerRuntime.ts:152-155 | In every run an airborne load counts as managed if and only if one of the requests it serves is |
| RuntimeReactions.RunningLoopGoesOn | packages/client/src/observerRuntime.ts:338-352 | In every run a started runtime that was neither stopped nor halted is consuming a stream, or can open its next cycle at once or after the end of the last one is handled |
| RuntimeReactions.UselessLoopExits | packages/client/src/observerRuntime.ts:338-352 | In every run the loop of a started runtime that was stopped or halted has exited, or exits with its next step, or consumes a stream that has been told to end |
| RuntimeReactions.CycleEnds | packages/client/src/observerRuntime.ts:308-322 | However a consumed cycle ends its iterator has been returned and nothing of it is held; the ending is halted exactly in a halted runtime or on a permanent error, and clean exactly if the stream just ended and no resync of it had failed |
| RuntimeReactions.ResyncsHearTheirLoad | packages/client/src/observerRuntime.ts:162-164 | A landing answers the resyncs among its requests and no other, with success if and only if it loaded a snapshot |
| RuntimeReactions.FaultIff | packages/client/src/observerRuntime.ts:324-333 | In every run a cycle becomes faulty exactly by the failed resync of its own epoch in an active runtime that is not halted |
| RuntimeInvariants.ChainNext | packages/client/src/observerRuntime.ts:149-180 | Every transition keeps the shape, the answers and the budget of the refresh chain |
| RuntimeResync.LoopNext | packages/client/src/observerRuntime.ts:338-352 | Every transition keeps the agreement of loop position, active epoch, iterator and life flags |
| RuntimeResync.ResyncNext | packages/client/src/observerRuntime.ts:324-333 | Every transition keeps "resynced, owed or condemned" for the open subscription |
| RuntimeStream.StreamNext | packages/client/src/observerRuntime.ts:236-249 | Every transition keeps that the snapshot is its base response with the events since then reduced, and that a stale flight schedules a follow-up |
| ObserverRuntime.Runtime.SwapState | packages/client/src/observerRuntime.ts:70-78 | Replaces the state unless stop was requested |
| ObserverRuntime.Runtime.HaltRuntime | packages/client/src/observerRuntime.ts:102-109 | Halts once: flag, shown state and iterator return, or nothing |
| ObserverRuntime.Runtime.ApplyLoaded | packages/client/src/observerRuntime.ts:115-126 | A loaded snapshot settles the resync debt and enters `connected` only if one epoch spanned it |
| ObserverRuntime.Runtime.RequestManagedOrCallerRefresh | packages/client/src/observerRuntime.ts:138-147 | Queues a request and starts the chain if it rests |
| ObserverRuntime.Runtime.LaunchFlight | packages/client/src/observerRuntime.ts:151-158 | Takes all pending requests into one flight whose source is managed if any of theirs is |
| ObserverRuntime.Runtime.ApplyOutcome | packages/client/src/observerRuntime.ts:200-231 | What a landed outcome changes, by status, permanence and source |
| ObserverRuntime.Runtime.ResolveAll | packages/client/src/observerRuntime.ts:162-164 | The loop that resolves the flight's requests wakes exactly their resyncs, the last outcome standing |
| ObserverRuntime.Runtime.FlyAgainOrRest | packages/client/src/observerRuntime.ts:165-179 | A stale response schedules one more managed flight; otherwise the chain goes on or rests |
| ObserverRuntime.Runtime.Land | packages/client/src/observerRuntime.ts:158-176 | One whole turn of the chain after its await |
| ObserverRuntime.Runtime.ApplyStreamEvent | packages/client/src/observerRuntime.ts:236-249 | An event is reduced onto a held snapshot, counted as a mutation, and asks for one managed refresh exactly if it changes provider health or asks for a fresh snapshot |
| ObserverRuntime.Runtime.HandleFailure | packages/client/src/observerRuntime.ts:251-279 | A stream failure halts, shows a connection failure, or changes nothing |
| ObserverRuntime.Runtime.RunCycleOpens | packages/client/src/observerRuntime.ts:298-308 | A cycle takes a fresh epoch, opens its iterator and asks for a resync if one is due |
| ObserverRuntime.Runtime.RunCycleCloses | packages/client/src/observerRuntime.ts:308-321 | How a cycle ends, and that its epoch and iterator are released in every case |
| ObserverRuntime.Runtime.RunResyncContinues | packages/client/src/observerRuntime.ts:324-333 | A resync that failed in its own epoch condemns the cycle |
| ObserverRuntime.Runtime.LoopContinues | packages/client/src/observerRuntime.ts:340-350 | Between cycles the loop ends or demands a fresh resync |
| ObserverRuntime.Runtime.StartRuntime | packages/client/src/observerRuntime.ts:354-368 | `start()` works once, and shows loading or connected |
| ObserverRuntime.Runtime.StopRuntime | packages/client/src/observerRuntime.ts:370-385 | `stop()` works once and returns the iterator |
| ObserverRuntime.Runtime.ReconcileReturns | packages/client/src/observerRuntime.ts:415-421 | A reconcile response counts as a mutation and is applied under epoch gating |
| ClientConnection.DowntimeAccumulates | packages/client/src/connectionState.ts:20-32 | Over any streak of failures `since` is the time of the first and the error is the last |
| SafeErrors.ErrorClasses | packages/client/src/errors.ts:10-19 | An error tells of a failed connection, of incompatible builds or of neither, and never of both |
| SnapshotReducer.RedeliveryIsIdempotentUnlessAdded | packages/client/src/snapshotReducer.ts:9-85 | A second delivery of an event leaves the snapshot alone if and only if it is not `worktree.added` |
| SnapshotReducer.EmptyPatchKeepsRowIffNoRecovery | packages/client/src/snapshotReducer.ts:103-132 | A patch that names no field keeps a row exactly when the row had no recovery |
| SnapshotReducer.AgentDisplayIsFreshIff | packages/client/src/snapshotReducer.ts:134-205 | After an agent event the display is the one its state calls for exactly when no old warning or reason is left over |
| ReducerTheorems.RowsAfterEvent | packages/client/src/snapshotReducer.ts:9-47 | What every event does to the rows, place by place: an added row comes last, an update changes the row with its id by the fields the patch gives and keeps every other field and row, an agent event changes only agent, status line and recovery of its row, a removal leaves exactly the other rows in order, and all other events leave the rows alone |
| ReducerTheorems.SessionsAfterEvent | packages/client/src/snapshotReducer.ts:20-47 | What every event does to the sessions, place by place: a created one replaces its namesake or comes last, an update changes only the session with its id and only the given fields, a removed session or a removed worktree leaves exactly the others in order |
| ReducerTheorems.RestAfterEvent | packages/client/src/snapshotReducer.ts:48-85 | Provider health changes for the named provider only, a failed command gives its notice, and a fresh snapshot is asked for exactly by changes of provider health and by the four events that tell of changes elsewhere |
| IngressTheorems.HandledRefinesAccepted | apps/observer/src/hooks/harnessIngressQueue.ts:173-208 | Per key the handled reports are those at certain increasing places among the accepted ones, and at idle the last handled is the last accepted |
| IngressTheorems.TokensMatchPendingKeys | apps/observer/src/hooks/harnessIngressQueue.ts:91-112 | Forked offers, queued tokens and the held token give every pending key exactly one token and other keys none, so a claim never misses |
| IngressTheorems.Accounting | apps/observer/src/hooks/harnessIngressQueue.ts:302-393 | Depth stays within the bound, the clamp of the active count never bites, and at idle enqueued is coalesced plus processed plus thrown |
| IngressTheorems.DedupeMemoryIsSound | apps/observer/src/hooks/harnessIngressQueue.ts:436-450 | The remembered ids are the newest 10,000 accepted ones without repetition, and equal ids are accepted more than 10,000 acceptances apart |
| IngressTheorems.WaitersOnlyWhileBusy | apps/observer/src/hooks/harnessIngressQueue.ts:156-171 | In every run each drain call is waiting or resolved and never both, and some wait only while the queue is not idle |
| IngressTheorems.DrainResolvesOnlyWhenIdle | apps/observer/src/hooks/harnessIngressQueue.ts:210-231 | A step that resolves a drain ends in an idle state and leaves no waiter |
| IngressTheorems.ShutdownDrainCountsDown | apps/observer/src/hooks/harnessIngressQueue.ts:116-124 | Once shutdown is flagged a waiting drain is resolved if and only if exactly the depth at that time has completed since |
| IngressTheorems.NoReportIsStranded | apps/observer/src/hooks/harnessIngressQueue.ts:91-96 | Unless the queue is idle one of its own steps is enabled |
| IngressTheorems.OwnStepsRunOut | apps/observer/src/hooks/harnessIngressQueue.ts:173-208 | Every own step uses up some of a finite supply |
| IngressTheorems.OwnRunsEndIdle | apps/observer/src/hooks/harnessIngressQueue.ts:91-96 | From every reachable state every maximal run of own steps is bounded by that supply and ends idle |
| IngressReceipts.ReceiptIff | apps/observer/src/hooks/harnessIngressQueue.ts:277-344 | In every run, told from the history: a report is a duplicate exactly if no shutdown was called and its id is among the newest 10,000 accepted; it is rejected exactly after a shutdown, or if it is none of these, no report of its key waits and the queue is full; otherwise it is accepted |
| IngressReceipts.ReceiptTellsWhatHappened | apps/observer/src/hooks/harnessIngressQueue.ts:315-344 | In every run an accepted report is the last accepted one and the one that waits under its key, an older one there being counted as coalesced; a duplicate changes nothing; a rejected one is counted as dropped with its error |
| IngressReceipts.ResultIsCounted | apps/observer/src/hooks/harnessIngressQueue.ts:360-393 | A processed report counts as such, and as failed too if it was rejected; a thrown error counts as a failure only; the last error is the one that came with it |
| IngressReceipts.DrainIsCounted | apps/observer/src/hooks/harnessIngressQueue.ts:409-427 | A drain of the spool is noted with its three counts and its time, and changes no other number |
| IngressReceipts.ReasonsArePassedOn | apps/observer/src/hooks/harnessIngressQueue.ts:173-208 | In every run the reasons to reconcile that processed reports gave are passed on once each, in order and before the next report is claimed, unless the worker was interrupted, which drops at most one |
| IngressReceipts.InterruptDropsAReasonIff | apps/observer/src/hooks/harnessIngressQueue.ts:116-124 | In every run the interruption drops a reason if and only if it comes between the end of a report and the passing on of the reason it gave |
| IngressReceipts.KeysAreTakenInOrder | apps/observer/src/hooks/harnessIngressQueue.ts:91-96 | In every run ready keys are taken in the order in which they were offered |
| CoalesceKeys.PartsAgreeIffKeysDo | apps/observer/src/hooks/harnessIngressQueue.ts:490-500 | For all reports: the identifying parts and the caller's key agree if and only if the keys agree and provider, agent key and event type hold equally many colons |
| CoalesceKeys.ColonsCanMergeKeys | apps/observer/src/hooks/harnessIngressQueue.ts:490-500 | With different numbers of colons, reports of different agents and types can share a key |
| CoalesceKeys.AgentKeyIsTheFirstGiven | apps/observer/src/hooks/harnessIngressQueue.ts:491-498 | An agent goes by the first identifier its report gives, in the order run, session, worktree, terminal, directory, and a report that gives none by its own id |
| CoalesceKeys.MissingKeyIsDash | apps/observer/src/hooks/harnessIngressQueue.ts:499-499 | A report without a key of its own shares the key of one whose key is a dash, and of no other |
| HarnessIngressQueue.RememberReportId | apps/observer/src/hooks/harnessIngressQueue.ts:436-450 | The trimming loop keeps the newest ids and the matching set |
| HarnessIngressQueue.IngressQueue.EnqueueReport | apps/observer/src/hooks/harnessIngressQueue.ts:277-344 | Rejects, dedupes, coalesces or queues, with the receipt and the token of the source; a duplicate exactly if its id is remembered, and an accepted report now waits under its key |
| HarnessIngressQueue.IngressQueue.UpdateState | apps/observer/src/hooks/harnessIngressQueue.ts:210-231 | Installs a state and wakes all waiters exactly if it is idle |
| HarnessIngressQueue.IngressQueue.ClaimReport | apps/observer/src/hooks/harnessIngressQueue.ts:346-358 | Moves the key's report from pending to active, or finds none |
| HarnessIngressQueue.IngressQueue.RecordResult | apps/observer/src/hooks/harnessIngressQueue.ts:360-393 | Counts a processed, rejected or thrown report |
| HarnessIngressQueue.IngressQueue.FinishReport | apps/observer/src/hooks/harnessIngressQueue.ts:201-201 | Lowers the active count and may resolve drains |
| HarnessIngressQueue.IngressQueue.Drain | apps/observer/src/hooks/harnessIngressQueue.ts:156-171 | Resolves at once when idle and otherwise registers a waiter |
| CommandScope.ShareAChainIffSameTarget | apps/observer/src/commands/queue.ts:341-376 | Two commands share a chain exactly when they name the same session, worktree, project or nothing narrower |
| CommandTheorems.ScopesSerialise | apps/observer/src/commands/queue.ts:116-148 | When a command begins, every earlier command of its scope in chain order has begun and settled before |
| CommandTheorems.MarksAreUnique | apps/observer/src/commands/queue.ts:118-138 | Every command begins at most once and settles at most once |
| CommandTheorems.ForgottenScopesAreSettled | apps/observer/src/commands/queue.ts:142-148 | A command whose scope is absent from the map has settled |
| CommandTheorems.DrainWaitsForEverything | apps/observer/src/commands/queue.ts:160-164 | The step that resolves a drain ends in a state where all commands have settled |
| CommandTheorems.HandlersOverlapOnlyAfterTimeout | apps/observer/src/commands/queue.ts:219-254 | Two handlers of one scope are at work together only if the earlier one has timed out |
| CommandTheorems.HandlersOverlapIff | apps/observer/src/commands/queue.ts:219-254 | In every run, when a later command of a scope reaches its handler, both handlers are at work together if and only if the earlier one has timed out and not returned |
| CommandTheorems.TimedOutHandlersDoOverlap | apps/observer/src/commands/queue.ts:219-254 | A run in which that happens |
| CommandTheorems.ChainsNeverDeadlock | apps/observer/src/commands/queue.ts:116-136 | While anything is pending some command can take a step |
| CommandTheorems.OwnStepsRunOut | apps/observer/src/commands/queue.ts:182-329 | Every own step of a command uses up some of a finite supply |
| CommandTheorems.OwnRunsEndDrained | apps/observer/src/commands/queue.ts:160-164 | From every reachable state every maximal run of such steps is bounded by that supply, ends with nothing pending, and lets every waiting drain resolve |
| CommandTheorems.ShutdownIsFinalIff | apps/observer/src/commands/queue.ts:166-172 | After a shutdown has drained the queue no command ever begins again if and only if no dispatch was still awaiting persistence |
| CommandTheorems.LateDispatchBegins | apps/observer/src/commands/queue.ts:70-148 | Such a dispatch starts its command, and its handler's signal is not aborted |
| CommandTheorems.ShutdownFailsTheUnfinished | apps/observer/src/commands/queue.ts:239-254 | A command caught by shutdown before its handler returned never succeeds in any continuation |
| CommandOutcomes.SucceedsIff | apps/observer/src/commands/queue.ts:220-302 | In every run a command's record is terminal if and only if its end was written, and then it says succeeded if and only if its handler returned in time with its signal not aborted, and failed after anything else |
| CommandOutcomes.SuccessIsWritten | apps/observer/src/commands/queue.ts:256-257 | In every run a handler that returns in time with its signal not aborted lets its end be written next, as succeeded |
| CommandOutcomes.AbortedOnlyByShutdown | apps/observer/src/commands/queue.ts:166-172 | In every run a signal is aborted only after a shutdown, and a shutdown aborts those of all pending commands and no other |
| CommandOutcomes.AtWorkIff | apps/observer/src/commands/queue.ts:219-254 | In every run a handler counts as at work from its call to its return, timed out or not, and as timed out exactly after its timeout |
| CommandOutcomes.DispatchesAreAccountedFor | apps/observer/src/commands/queue.ts:70-141 | In every run the commands of dispatches that were not turned down are, with their numbers, those that await persistence, have joined a chain or have failed before |
| CommandOutcomes.EveryCallDrains | apps/observer/src/commands/queue.ts:160-172 | In every run there is one drain for each call of `drain()` or `shutdown()` |
| CommandOutcomes.DrainAwaitsThePending | apps/observer/src/commands/queue.ts:160-164 | A drain starts by awaiting exactly what is pending, resolves at once if that is nothing, and stays resolved |
| CommandTheorems.StatusNext | apps/observer/src/commands/queue.ts:197-302 | Every transition keeps the status column in step with the execution; which end is written is the subject of SucceedsIff |
| CommandQueue.Queue.BeginDispatch | apps/observer/src/commands/queue.ts:70-87 | A dispatch is rejected exactly while shutting down and otherwise awaits persistence |
| CommandQueue.Queue.FinishDispatch | apps/observer/src/commands/queue.ts:116-141 | The execution is attached to its scope's tail and becomes the tail |
| CommandQueue.Queue.BeginExecution | apps/observer/src/commands/queue.ts:118-136 | An execution starts once the tail it was attached to has settled |
| CommandQueue.Queue.WriteStartedStatus | apps/observer/src/commands/queue.ts:197-217 | The started status is written before the started event |
| CommandQueue.Queue.EndHandler | apps/observer/src/commands/queue.ts:239-254 | A handler's success counts only if its signal is not aborted; a timeout leaves it at work |
| CommandQueue.Queue.WriteTerminalStatus | apps/observer/src/persistence/commands.ts:53-89 | The status becomes succeeded exactly if the handler's result was, and failed otherwise |
| CommandQueue.Queue.SettleExecution | apps/observer/src/commands/queue.ts:137-139 | A chain link settles whether the execution returned or threw |
| CommandQueue.Queue.ForgetExecution | apps/observer/src/commands/queue.ts:142-148 | A settled execution is forgotten, and its scope only if it is still the tail |
| CommandQueue.Queue.BeginShutdown | apps/observer/src/commands/queue.ts:166-172 | The loop aborts every live controller and nothing else |
| EventBus.Bus.Publish | apps/observer/src/runtime/eventBus.ts:20-27 | The loop offers the event once to every subscriber whose filter matches |
| EventBus.Bus.Subscribe | apps/observer/src/runtime/eventBus.ts:32-41 | A new subscriber is registered at once with an empty queue |
| EventBus.Bus.Release | apps/observer/src/runtime/eventBus.ts:55-61 | A returned subscriber leaves the bus and its stream is over |
| EventBus.Subscriber.Take | apps/observer/src/runtime/eventBus.ts:44-54 | Events are taken in the order in which they were queued |
| CommandWaitTheorems.FilterIsExactIff | packages/protocol/src/client.ts:413-416 | The waiter's bus filter lets an event through if and only if the waiter would act on it |
| CommandWaitTheorems.NeverSleepsThroughTheEnd | packages/protocol/src/client.ts:405-435 | In every interleaving a listening waiter with nothing under way on an open stream has a command whose end is not published |
| CommandWaitTheorems.AnswerIsThePersistedRecord | packages/protocol/src/client.ts:448-457 | An answer is the persisted record, and it is terminal |
| CommandWaitTheorems.EndIsFinal | apps/observer/src/commands/queue.ts:256-328 | A terminal record is never written again |
| CommandWaitTheorems.OneEventSuffices | packages/protocol/src/client.ts:479-488 | A waiter hears at most one event of the end, and the get after it always answers |
| CommandWaitTheorems.MovesUnlessAsleepIff | packages/protocol/src/client.ts:459-490 | A waiter without a result can take a step of its own if and only if it is not asleep |
| CommandWaitTheorems.EffortRunsOut | packages/protocol/src/client.ts:459-490 | Every own step of a waiter uses up some of a finite supply |
| CommandWaitTheorems.OwnRunsEnd | packages/protocol/src/client.ts:405-435 | From every reachable state every maximal run of own steps is bounded by that supply and ends with a result or asleep, and with a result if the end was published before |
| CommandWaitTheorems.OtherEventsAreNotHeard | apps/observer/src/runtime/eventBus.ts:69-100 | Publishing anything else changes nothing for the waiter |
| CommandWaitTheorems.StreamClosedIsHonest | packages/protocol/src/client.ts:466-478 | The stream-closed error follows a stream that ended unheard and a later get that found the command unfinished |
| CommandWaitTheorems.SleepsForGoodIff | apps/observer/src/commands/queue.ts:256-276 | In every run a waiter asleep over a finished command sleeps through every continuation in which its stream does not break and it does not give up, if and only if the executor threw between the terminal write and the publish |
| CommandWaitTheorems.LostPublishLeavesAWaiterAsleep | apps/observer/src/commands/queue.ts:256-276 | A run in which such an exception leaves a waiter asleep over a finished command |
| CommandWaitOutcomes.AnswerIsTheOutcome | packages/protocol/src/client.ts:448-457 | In every run the record says succeeded or failed exactly as the executor wrote it, and so does the answer |
| CommandWaitOutcomes.LeftStreamsStayLeft | packages/protocol/src/client.ts:423-434 | In every run nothing is queued for a stream the server has left and nothing is read from one the client has closed |
| CommandWaitOutcomes.ErrorIsHonest | packages/protocol/src/client.ts:459-490 | A waiter fails for the reason there is: its timeout, a failed subscription, a failed request, or a stream that is over |
| CommandWaitOutcomes.MatchesIff | apps/observer/src/runtime/eventBus.ts:69-100 | An event passes a filter exactly if every criterion given holds of it, a time only if the event has one |
| CommandWaiter.Session.RouteSubscription | packages/protocol/src/server.ts:178-192 | The acknowledgement and the registration happen in one turn |
| CommandWaiter.Session.StreamEvents | packages/protocol/src/server.ts:203-225 | While the socket is open the loop appends to the wire every queued event, in order, and leaves the queue empty; otherwise it changes nothing |
| CommandWaiter.Session.ReceiveRecord | packages/protocol/src/client.ts:418-422 | A terminal record is the answer; otherwise the waiter listens, or gives up if the stream is over |
| CommandWaiter.Session.ReadEvents | packages/protocol/src/client.ts:459-490 | A listening client takes a beginning of the wire, of which at most the last event tells the end; if it does the client goes to get the record, otherwise it has read everything and listens on |
| CommandWaiter.Session.CloseSubscription | packages/protocol/src/client.ts:423-434 | With a result of either kind the subscription is closed |
| CommandWaiter.ForwardingIsARun | packages/protocol/src/server.ts:203-225 | What the forwarding loop does is a run of the protocol, so the theorems about runs cover it |
| CommandWaiter.ReadingIsARun | packages/protocol/src/client.ts:459-490 | And so is what the reading loop does |
| IngressStore.RecordHookKeepsTablesConsistent | apps/observer/src/persistence/ingressDedupe.ts:4-20 | Whatever statement fails, recording a hook keeps one row for every claimed hook id and none for others |
| IngressStore.SecondDeliveryRecordsAgainIff | apps/observer/src/hooks/ingestion.ts:77-114 | A second delivery of a new event adds a second row if and only if the event carries no hook id of its own |
| IngressStore.RejectedIff | apps/observer/src/persistence/index.ts:85-110 | A recording is rejected exactly if a statement it runs fails, and then leaves nothing; a duplicate changes nothing; a new hook adds exactly its row and its claim |
| IngressStore.OtherEventIsRecordedIff | apps/observer/src/persistence/index.ts:69-83 | Any other event gets its row unless its id is taken |
| IngressStore.Sqlite.RecordEventWithIngressDedupe | apps/observer/src/persistence/index.ts:85-110 | Claim and insert happen together or not at all, whichever statement fails |
| IngressStore.Sqlite.ClaimDedupeKey | apps/observer/src/persistence/ingressDedupe.ts:11-19 | The key is claimed exactly if it was free |
| IngressStore.Sqlite.Rollback | apps/observer/src/sqlite.ts:98-101 | The tables are those at the begin of the transaction |
| HookSender.AttemptIsDecided | packages/provider-hooks/src/sender.ts:389-470 | An attempt gives an ingested receipt or an error, never both or neither |
| HookSender.AttemptErrorIs | packages/provider-hooks/src/sender.ts:389-470 | The error of a failed attempt is the observer's own if it gave one, `HOOK_REJECTED` if it gave none, and that of the call if there was no answer |
| HookSender.Sender.Send | packages/provider-hooks/src/deliveryPolicy.ts:32-76 | A send says ingested exactly if some delivery succeeded and spools exactly if none did, with the error of the last thing that failed; it starts the observer only after a failed delivery and retries only a started one |
| HookTheorems.AtMostOneRow | apps/observer/src/persistence/index.ts:85-110 | In every run every hook id has at most one row |
| HookTheorems.PublishedAtMostOnce | apps/observer/src/hooks/ingestion.ts:103-114 | A hook is published at most once, and only with its row in the log |
| HookPublishing.RecordedIsPublished | apps/observer/src/hooks/ingestion.ts:103-114 | In every run a hook with a row is published, or has a request about to publish it, or was caught by a crash between the two |
| HookPublishing.AcceptedIsPublishedOnce | apps/observer/src/hooks/ingestion.ts:103-114 | A hook that was answered as accepted is published exactly once, unless a crash caught it or a request still has it |
| HookPublishing.PublishIsLostIff | apps/observer/src/hooks/ingestion.ts:109-113 | In every state a recorded hook that is not published stays so in every continuation if and only if no request is about to publish it |
| HookPublishing.CrashLosesPublish | apps/observer/src/hooks/ingestion.ts:109-113 | In every run a crash that catches a hook between its row and its publish loses the publish for good |
| HookPublishing.ClaimsNameTheirRows | apps/observer/src/persistence/ingressDedupe.ts:4-20 | In every run the claim of a hook is filed under its id and names the row of that hook |
| HookPublishing.FailedAttemptGoesOn | packages/provider-hooks/src/deliveryPolicy.ts:46-76 | A failed first delivery starts the observer if that was asked for, and every other failed delivery leads to the spool |
| HookPublishing.StartGoesOn | packages/provider-hooks/src/deliveryPolicy.ts:64-73 | A started observer is delivered to once more, and one that does not start leads to the spool |
| HookPublishing.StartsOnlyIfAsked | packages/provider-hooks/src/deliveryPolicy.ts:51-76 | In every run the observer is started, and a second delivery made, only for a sender that asked for it |
| HookPublishing.RetryComesFromARejection | apps/observer/src/hooks/spool.ts:122-141 | The update of a record is tried again only if it was that of a rejection, and only once |
| HookTheorems.ReceiptMeansKept | packages/provider-hooks/src/deliveryPolicy.ts:46-75 | Once a sender has its receipt the hook has its row, or its spool file is there and readable, being rewritten, or torn by a rewrite that was cut short |
| HookTheorems.DrainedSpoolMeansOneRowEach | apps/observer/src/hooks/spool.ts:112-144 | With the spool empty every hook with a receipt has exactly one row |
| HookTheorems.CrashLosesIff | apps/observer/src/hooks/spool.ts:215-235 | In every run a crash makes the file of a spooled and unrecorded hook unreadable in every continuation if and only if the file is empty at that moment |
| HookTheorems.AbandoningLosesIff | apps/observer/src/hooks/spool.ts:128-141 | In every run a drain whose second update of a record fails, and which ends with that, makes the file unreadable in every continuation if and only if the file is empty and no other drain is at work on it |
| HookTheorems.RetryLosesNothing | apps/observer/src/hooks/spool.ts:122-141 | In every run a first update of a rejected record that fails loses nothing: some continuation makes the file readable again |
| HookTheorems.CrashDuringRewriteLosesAHook | apps/observer/src/hooks/spool.ts:215-235 | A run after which a hook with a receipt has no row and its file is unreadable in every continuation |
| HookTheorems.LostOnlyIfARewriteWasCut | apps/observer/src/hooks/spool.ts:128-141 | A hook with a receipt but without row or usable file is lost only if some step of its run was a crash or a write failure in the middle of rewriting that file |
| HookTheorems.InvNext | apps/observer/src/hooks/spool.ts:95-165 | Every transition of senders, observer and drains keeps that claims, publishes, receipts and files agree |
| SpoolDrain.Drainer.Drain | apps/observer/src/hooks/spool.ts:112-144 | One pass over the listed files treats each as the source does, in order |
| SpoolPass.PassIsARun | apps/observer/src/hooks/spool.ts:112-144 | From every state the pass, with its files, tables and counters, is what a run of one drain's steps does |
| SpoolPass.FailedUnlinkIsUpdated | apps/observer/src/hooks/spool.ts:124-141 | A record that was ingested but whose file cannot be unlinked is written again with one more attempt |
| SpoolDrain.EveryFileIsAccountedFor | apps/observer/src/hooks/spool.ts:112-164 | After a pass every readable file it visited is gone with its hook recorded or has one more attempt, others are untouched, and the counters add up |
| SpoolDrain.UndisturbedPassDelivers | apps/observer/src/hooks/spool.ts:122-126 | A pass in which nothing fails removes every readable file it visits, each with its hook recorded |
| StablePayload.SameKeyIffSameStableMeaning | apps/observer/src/persistence/observations.ts:301-326 | Payload keys are equal if and only if the payloads say the same, at any order of fields, apart from the volatile fields at the top of a record |
| StablePayload.RecordsShareAKeyIff | apps/observer/src/persistence/observations.ts:315-323 | Two records share a key if and only if they have the same fields with the same meanings, apart from `observedAt`, `lastCheckedAt` and `latencyMs` |
| StablePayload.NormalizeKeepsMeaning | apps/observer/src/persistence/observations.ts:305-326 | The normaliser keeps what a payload says, drops only top-level volatile fields and sorts every record |
| StablePayload.NormalFormsAreCanonical | apps/observer/src/persistence/observations.ts:315-325 | Two sorted forms that say the same are equal |
| ObservationTheorems.HistoryIsCompressed | apps/observer/src/persistence/observations.ts:20-79 | With non-decreasing times, and increasing first ids of runs that meet at one time, an entity's rows are the run-length compression of its inputs, however other entities' inputs are interleaved |
| ObservationTheorems.IncreasingTimesAreInOrder | apps/observer/src/persistence/observations.ts:20-79 | Inputs with increasing times are in that order, whatever their ids |
| ObservationTheorems.InputIsCompressedIff | apps/observer/src/persistence/observations.ts:269-293 | Whatever the times and ids, a coalescing input turns the compression of a history into that of the longer history if and only if the row the query finds serves it as the row of the last run would |
| ObservationTheorems.CompressionIsUnique | apps/observer/src/persistence/observations.ts:36-57 | A history has one such compression |
| ObservationTheorems.LatestRowIsLastInput | apps/observer/src/persistence/observations.ts:269-293 | The latest row always holds the last input |
| ObservationTheorems.TiesAreNotCompressed | apps/observer/src/persistence/observations.ts:286-287 | Equal times can keep equal neighbours in separate rows |
| ObservationTheorems.LatestIsTheLatest | apps/observer/src/persistence/observations.ts:269-293 | The query finds a row of the entity exactly if there is one, and none of the entity's is later |
| ObservationTheorems.InputIsRecorded | apps/observer/src/persistence/observations.ts:36-79 | An input that coalesces renews the latest row, which keeps its id and place; any other is inserted with all it says and replaces only a row with its id; all other rows stay |
| ObservationTheorems.PruningForgetsExactly | apps/observer/src/persistence/observations.ts:110-129 | Pruning leaves, in order, exactly the rows that expire later or have no expiry and are not from before the legacy limit |
| Observations.ObservationTable.Insert | apps/observer/src/persistence/observations.ts:20-79 | The latest row is refreshed if it is stably equal, else a row is inserted; the returned row holds the input |
| Observations.ObservationTable.PruneExpired | apps/observer/src/persistence/observations.ts:110-129 | Two deletes forget exactly the expired rows and the old ones without expiry, and count them |
| NdjsonFraming.RoundTrip | packages/protocol/src/transport.ts:200-238 | Values sent come out in order, for every cutting of the text into chunks |
| NdjsonFraming.PartialRoundTrip | packages/protocol/src/transport.ts:200-221 | Before that, what has come out is a prefix of what was sent |
| NdjsonFraming.ChunksDoNotMatter | packages/protocol/src/transport.ts:200-221 | For text without malformed lines the reader's state depends on the text only, not on the chunks |
| NdjsonFraming.ChunksDoNotMatterIff | packages/protocol/src/transport.ts:212-218 | All cuttings of a text deliver the same values if and only if no value follows a malformed line |
| NdjsonConnection.Connection.OnData | packages/protocol/src/transport.ts:200-221 | The data handler takes every complete line off the buffer and wakes all readers |
| NdjsonConnection.Connection.TakeLines | packages/protocol/src/transport.ts:202-219 | The loop leaves the rest of the text, queues the values of its lines and notes a malformed one |
| NdjsonConnection.Connection.Next | packages/protocol/src/transport.ts:239-255 | Queued frames come first, then an error, then the end; a reader sleeps only when there is none of these |
| NdjsonConnection.Connection.OnError | packages/protocol/src/transport.ts:223-228 | An error ends the stream, wakes everyone and drops no queued frame |
| NdjsonConnection.Connection.OnClose | packages/protocol/src/transport.ts:229-233 | A close ends the stream, wakes everyone and drops no queued frame |
| StableNameTheorems.NameIsBoundedAndNormal | packages/runtime/src/names.ts:52-80 | Every name fits its limit, is not empty, has only allowed characters and no leading, trailing or doubled separator |
| StableNameTheorems.UnhashedNameIsTheBase | packages/runtime/src/names.ts:68-70 | Without a hash the name is the base; the truncation and the fallback there never act |
| StableNameTheorems.HashedNameIsHeadAndHash | packages/runtime/src/names.ts:72-79 | With room the name is a beginning of the base, a separator and the hash; the fallback for the head is never taken |
| StableNameTheorems.UnchangedIffNormal | packages/runtime/src/names.ts:89-105 | A part counts as unchanged if and only if, apart from spaces around it, it was normal already |
| StableNameTheorems.PartBecomesItsWords | packages/runtime/src/names.ts:89-105 | Every part becomes its maximal stretches of allowed characters other than the separator, joined by the separator, or the fallback if it has none |
| StableNameTheorems.TruncatedAtTheLimit | packages/runtime/src/names.ts:68-78 | A normal text that is too long is cut at its limit, less a separator that the cut leaves at its end |
| StableNameTheorems.ProfilesAre | packages/runtime/src/names.ts:25-50 | What sets the three profiles apart: separator, fallback, limit, lower-casing and the characters allowed |
| StableNameTheorems.OptionsAre | packages/runtime/src/names.ts:52-57 | A prefix comes first, and the caller may choose the limit and how much of the digest is taken |
| Whitespace.TrimTakesTheEnds | packages/runtime/src/names.ts:93-93 | Trimming takes exactly the spaces at both ends |
| StableNameTheorems.PlainIffNormalAndFits | packages/runtime/src/names.ts:64-70 | In auto mode the hash is left out if and only if every part was normal and the plain text (the joined parts, or the fallback when there are none) fits |
| StableNameTheorems.PlainNameIsThePlainText | packages/runtime/src/names.ts:57-70 | And then the name is that plain text |
| StableNameTheorems.NamesAreTheirOwnNames | packages/runtime/src/names.ts:52-80 | A name taken as the only part under the same limits is its own name |
| StableNameTheorems.HashedNamesAgreeOnlyIfHashesDo | packages/runtime/src/names.ts:72-79 | Equal hashed names of one profile and limits have equal hashes, as far as these fit |
| StableNameTheorems.PlainNameCanEqualAHashedOne | packages/runtime/src/names.ts:65-70 | A plain name can be the same as a hashed one |

## Left out

- Hooks and listeners of the client runtime, `reportedSubscriptionError`, and the backoff schedule between cycles: they
  decide what is reported and when, not what state is reached. Hooks that call back into the runtime are not modelled.
- The lazily opened protocol iterator: "subscribed" means, as in the runtime, that an epoch is active.
- Sockets, SQL text, file permissions and schema validation: the models take well-typed values, tables, channels and
  files. Timestamps are integers; UTF-8 decoding of socket bytes is taken as done.
- CommandTheorems.ScopesSerialise: speaks of executions from beginning to settling; a handler that outlives its timeout
  is the subject of HandlersOverlapOnlyAfterTimeout.
- CommandWaitTheorems.OwnRunsEnd: counts steps and leaves real time out; that an enabled step is eventually taken is
  the scheduler's part. The same holds of OwnRunsEndIdle and OwnRunsEndDrained.
- HookTheorems.AtMostOneRow: is claimed for provider hook events only; harness reports are accepted before they are
  persisted and may be coalesced, so the same is not true of them.
- HookTheorems.ReceiptMeansKept: takes spool file names as never used twice, which the random spool ids of the source
  give it.
- The auto-start lock: starting the observer is a step that succeeds or fails.
- A publish on the bus that throws: ingestion of a hook would then answer `rejected` with its row already in the log.
- SpoolDrain.Drainer.Drain: is one pass undisturbed by others and without the summary event that follows it; passes that
  disturb each other are steps of HookModel, and so are updates that fail. Spooled harness reports are left out of both.
- HookSender.Sender.Send: is stated by its effects and its result; that these are what some run of a sender's steps in
  HookModel does is not proved.
- ObservationTheorems.HistoryIsCompressed: asks for times per entity that do not decrease, for increasing first ids where
  two runs meet at one time, and for row ids that are given out once; InputIsCompressedIff says exactly what each input
  needs, and TiesAreNotCompressed shows why. Pruning between inputs is not part of it.
- StablePayload.SameKeyIffSameStableMeaning: takes records as finite maps from names to values. The source assigns to
  `stable[key]`, by which a nested field named `__proto__` is dropped, so payloads that differ only there share a key.
- Observation queries by kind and expiry, the current-entity query and payload schemas: shallow filters.
- NdjsonFraming.RoundTrip: takes JSON.stringify and JSON.parse as parameters that agree on the values sent.
- StableName.StableNameOf: takes the lower-casing of non-ASCII text and the digest as parameters, and text as UTF-16
  units: a character outside the basic plane becomes two separators before they are collapsed instead of one.
- Metadata refresh, session and recovery-handle upserts, retention policy, migrations, command-line tools and the
  terminal interface.
