# Verified models of OpenHands protocols

This project models, in Dafny 4.11, the state machines, protocols and transactions of OpenHands whose
correctness spans more than one handler or one call, and proves what they keep over whole runs.

| file | what it models |
|---|---|
| `Events.dfy` | events, agent states and confirmation marks |
| `AgentCore.dfy` | what each handler of the agent controller does, as functions on a controller and the event stream |
| `AgentController.dfy` | the controller and the stream as classes; every handler carried out in place |
| `AgentRuns.dfy` | slot and state agreement, slot discipline, delegation, over every run |
| `AgentAnswers.dfy` | resets: every interrupted tool call is answered, none twice |
| `AgentHandshake.dfy` | the confirmation handshake over every run; what makes the agent go on or stop |
| `AgentRecalls.dfy` | which kind of recall a user message triggers, over every run |
| `AgentReactions.dfy` | what each kind of event and each outcome of the agent comes to, field by field; announcements |
| `LoopRecovery.dfy` | truncation and restart after a detected loop |
| `Replay.dfy` | preparing a recorded trajectory and the replay cursor |
| `Lease.dfy` | the Redis lease of the clustered conversation manager, any number of nodes |
| `ClusterNode.dfy` | one node: its loops and connections, and its periodic tasks |
| `ClusterRuns.dfy` | any number of nodes on one Redis, through any calls, as a run of the lease protocol |
| `TokenRefresh.dfy` | double-checked refresh of auth tokens, any number of callers |
| `OrgCascade.dfy` | the organization delete cascade as one transaction |
| `WebhookScheduler.dfy` | the GitLab webhook job as a round-robin scheduler |
| `ConversationStarter.dfy` | the workflow-run collection with its once-only send flag |
| `ConversationOverlap.dfy` | the same collection when deliveries overlap as transactions |
| `ResendSync.dfy` | the mailing-list sync that records first and compensates |

`dafny verify dfyconfig.toml` checks everything.

## How the controller is modelled

One delivered event is one atomic step, and events are delivered in the order of the stream (`System.next`).
`Env` holds what a handler asks of its surroundings: the stuck detector's result, the outcome of the agent's
step (any action, or any of the error branches of the source), and the agent chosen for a delegate. The class
`AgentController` is proved to do to its fields and to the stream exactly what the functions of `AgentCore` say,
and the run theorems are about those functions, for every sequence of moves: deliveries, events published by
others, states set by the session, and steps made from outside. `RunConversation` carries out any sequence of moves
on the class and ends where `DoAll` does, which by `DoAllIsARun` is the end of a run the theorems are about. The queue holds the events as they were when
they were added; the controller's pending action keeps its own copy, whose id changes when it is confirmed.

## Where the code and its documentation differ

* A note in `_reset` says recall actions need no error on a reset. The code compares tool-call metadata, and a
  recall action has none, so it does write an error unless some observation without metadata is in the history.
  State changes never enter the history, so stopping right after the first message shows it
  (`StopAfterFirstMessageReportsTheRecall`); `RecallResetIsSilentIff` gives the exact condition.
* The routing to a delegate looks for two limit messages in the last error. The budget text it looks for has no
  space after the colon, unlike the text that is stored, so only the iteration limit keeps a delegate
  receiving events. `LastError` records just that. The test asks for the last error and not for the state, so
  such a delegate goes on receiving events even once it is finished (`DelegateEndsWhenDone`).
* A delegate that delegates again is never resumed, because its own delegate gets no events
  (`NestedDelegateStarves`). For the delegates of the root controller no bound on nesting is assumed anywhere.
* The store of workflow runs relies on a row lock for thread safety, but nothing is locked while there is no row and
  no index is unique, so overlapping first deliveries can both start a conversation (`ReturnedOnceIffNoOverlap`).
* A note in the webhook job says the stamp is always updated after a row's turn, success or failure. A row with both
  ids or none cannot be stamped, so it keeps all rows stamped later from ever being served (`ServedIffNoMalformedEarlier`).
  The schema allows such a row (both columns are nullable and no constraint asks for exactly one), but the two
  writers in the repository, gitlab_service.py:142-157 and routes/integration/gitlab.py:319, set exactly one id.
* The remote connections are collected by connection, so of several live entries of one connection for idle
  conversations only one counts. Idle closing is certain to spare all connected conversations if and only if each
  of the idle ones that is connected has a connection with no live entry for another of them (`ClosingIsExactIff`);
  `SharedConnectionProtectsOne` shows the failing case. Two such entries arise when a second `join_conversation`
  comes from the same socket (standalone_conversation_manager.py:173): the old entry lapses only after up to 15 s.
* An access token whose expiry is 0 counts as unexpired when it is loaded and as invalid when it is checked
  (`NoExpiryIsNeverExpiredAndNeverValid`).
* Deleting an organization does not delete the organization's own row, because that call is not awaited; the
  model keeps the row.
* The refresh safety of the token store rests on reading the row again under the lock; the second expiry check
  keeps a caller from refreshing a row that another caller has just refreshed.

## Model

| member | source | states |
|---|---|---|
| AgentCore.SetState | openhands/controller/agent_controller.py:673-725 | a state change touches only state and slot; entering STOPPED or ERROR empties the slot, confirming or rejecting marks and renumbers the pending action, any other change leaves it |
| AgentRuns.SlotAlwaysAgrees | openhands/controller/agent_controller.py:673-725 | in every run: nothing is pending in STOPPED or ERROR, and in USER_CONFIRMED or USER_REJECTED a pending action carries the matching mark |
| AgentRuns.TurnKeepsSlot | openhands/controller/agent_controller.py:488-513 | each event, state change or step keeps that agreement |
| AgentRuns.SlotIsKept | openhands/controller/agent_controller.py:863-1022 | a turn that does not release the slot keeps the same action in it and issues no new runnable action |
| AgentRuns.IssuedActionIsHeld | openhands/controller/agent_controller.py:1022-1035 | a runnable action just issued is the newest event of the stream and sits in the slot under that event's id |
| AgentRuns.SlotDiscipline | openhands/controller/agent_controller.py:863-1022 | between two runnable actions there is an observation caused by the pending action's current id, a reset, or a user message taking over the slot, and until then the slot holds the first action |
| AgentRuns.RootSlotDiscipline | openhands/controller/agent_controller.py:454-486 | the same for the root controller in every run of the whole system with delegates |
| AgentRuns.DelegateSlotDiscipline | openhands/controller/agent_controller.py:454-486 | and for a delegate, while it lives, in full |
| AgentRuns.SystemAlwaysAgrees | openhands/controller/agent_controller.py:673-725 | slot and state agree in the root controller and in its delegate at every moment of every run of the system |
| AgentRuns.DoAllIsARun | openhands/controller/agent_controller.py:454-486 | where a sequence of moves ends is where a run of those of them that were possible ends |
| AgentRuns.ParentTakesTurns | openhands/controller/agent_controller.py:454-486 | every move of the system is one turn of the root controller |
| AgentRuns.ChildTakesTurns | openhands/controller/agent_controller.py:473-479 | every move that does not end a delegate is one turn of the delegate |
| AgentRuns.DelegateStarts | openhands/controller/agent_controller.py:521-531 | a delegate appears only when a delegate action is delivered, which is then the newest event of the parent's history |
| AgentRuns.ParentIsFrozen | openhands/controller/agent_controller.py:460-483 | while a delegate runs the parent's history does not change, nor its state and slot unless it is commanded directly |
| AgentRuns.DelegateEnds | openhands/controller/agent_controller.py:848-861 | ending a delegate publishes a result with the tool call of the newest delegate action in the parent's history |
| AgentRuns.DelegateResultIsPaired | openhands/controller/agent_controller.py:454-486 | the result of a delegate carries the tool call of exactly the action that started it, whatever happened in between |
| AgentRuns.NestedDelegateStarves | openhands/controller/agent_controller.py:420-421 | a delegate that started a delegate never steps again |
| AgentAnswers.ResetAnswersThePendingAction | openhands/controller/agent_controller.py:632-671 | after entering STOPPED or ERROR the pending tool call is matched by an observation; exactly one synthetic error is written if and only if none was there, of the kind of the state entered |
| AgentAnswers.RootResetsAnswer | openhands/controller/agent_controller.py:632-725 | in every run of the system each turn of the root controller that resets it with an action pending leaves the tool call answered in its history or in what was published; the one exception is a turn that first frees the action by an observation with another tool call or outside the history |
| AgentAnswers.DelegateResetsAnswer | openhands/controller/agent_controller.py:632-846 | the same for a delegate, while it lives and when it ends |
| AgentAnswers.EmptyResetIsSilent | openhands/controller/agent_controller.py:637-671 | without a pending action a state change publishes only its own notice |
| AgentAnswers.RecallResetIsSilentIff | openhands/controller/agent_controller.py:637-667 | resetting a pending recall writes no error exactly when an observation without tool call is in the history |
| AgentAnswers.StopAfterFirstMessageReportsTheRecall | openhands/controller/agent_controller.py:667 | a first user message followed by a stop writes an error for the recall |
| AgentAnswers.MoveKeepsHealthy | openhands/controller/agent_controller.py:650-665 | no move makes the system report an action twice, or leaves a reported action pending in either controller |
| AgentAnswers.AnsweredAtMostOnce | openhands/controller/agent_controller.py:632-671 | over every run each pending action, of the root or of a delegate, gets at most one synthetic error |
| AgentAnswers.NewConversationIsHealthy | openhands/controller/agent_controller.py:127-214 | a new conversation satisfies the starting conditions of the run theorems |
| AgentHandshake.TurnLeavesThePending | openhands/controller/agent_controller.py:683-711 | a turn that does not release the pending action leaves it as it is, unless it enters USER_CONFIRMED or USER_REJECTED: then the action carries the mark and the next id, and is published so |
| AgentHandshake.PendingIsAsDecided | openhands/controller/agent_controller.py:542-711 | in every run, from the moment an action is pending until its release, it is exactly as the last such decision left and published it |
| AgentHandshake.HandshakeInEveryRun | openhands/controller/agent_controller.py:542-711 | in every run, from the turn that issues an action marked for confirmation to the observation that frees it, nothing else is issued, the agent was taken out of its waiting, and the observation names the id under which the stream holds the action as the last decision marked it |
| AgentHandshake.RootHandshake | openhands/controller/agent_controller.py:454-570 | the same for the root controller in every run of the whole system, and the stream still holds the action at its id when the observation is delivered |
| AgentHandshake.DelegateHandshake | openhands/controller/agent_controller.py:454-570 | and for a delegate, in every part of a run through which it lives (a run by `PartOfARun`); without confirmation mode it asks only for actions that come already marked |
| AgentRecalls.StreamOnlyGrows | openhands/controller/agent_controller.py:454-486 | over every run of the system nothing that was published is lost or changed |
| AgentHandshake.RiskyActionNeedsTheUser | openhands/controller/agent_controller.py:978-1021 | in every run an action that must be confirmed (any in command-line mode, otherwise one of high risk or without an analyzer where confirmation is asked for) is marked confirmed exactly while the last decision about it entered USER_CONFIRMED |
| AgentHandshake.AnswerLetsTheAgentStep | openhands/controller/agent_controller.py:413-452 | the observation that answers the pending action of a running agent makes it take a step |
| AgentHandshake.UserMessageWakesTheAgent | openhands/controller/agent_controller.py:572-611 | a user message leaves the agent running with the recall pending, and the answer to the recall makes it step |
| AgentReactions.HiddenEventsDoNothing | openhands/controller/agent_controller.py:488-491 | a hidden event is passed over |
| AgentReactions.CommandsSettleTheState | openhands/controller/agent_controller.py:515-540 | a finish, a rejection, a waiting agent message and a command for a plain state lead to exactly that state, its notice and the record in the history |
| AgentReactions.AnswersSettleTheState | openhands/controller/agent_controller.py:542-570 | an answer frees the slot; a rejected action leaves the agent waiting for the user, any other state stays |
| AgentReactions.AnswersMakeTheAgentGoOn | openhands/controller/agent_controller.py:413-452 | answering a running or confirmed agent is freeing its slot, letting it run and making it step, for the kinds of observation that do |
| AgentReactions.WakingEventsMakeTheAgentStep | openhands/controller/agent_controller.py:413-452 | condensations, messages of the agent and observations come to recording them and making the agent step |
| AgentReactions.OtherEventsAreOnlyRecorded | openhands/controller/agent_controller.py:413-452 | all other kinds of event change nothing but the history |
| AgentReactions.UserMessagesAreRecalled | openhands/controller/agent_controller.py:572-611 | a user message publishes and holds a recall of its text, sets the agent running, and does nothing else |
| AgentReactions.DelegatesAreTasked | openhands/controller/agent_controller.py:735-794 | a delegate starts on the same stream, unasked, without history, at the end of the stream, with its system message and its task published; the parent waits |
| AgentReactions.DelegatesAreEnded | openhands/controller/agent_controller.py:796-861 | a delegate with nothing pending ends by stopping, with the result as the last event |
| AgentReactions.ActionsArePublished | openhands/controller/agent_controller.py:1022-1035 | every action of the agent but the null action is published, unchanged but for id and source, and held exactly if it is runnable |
| AgentReactions.ActionsWithAnIdAreRefused | openhands/controller/agent_controller.py:1022-1035 | an action that already has an id ends in ERROR with nothing pending |
| AgentReactions.RiskyActionsAreAsked | openhands/controller/agent_controller.py:978-1035 | an action that must be confirmed is published marked, after the notice that the user is asked |
| AgentReactions.RecoverableErrorsArePublished | openhands/controller/agent_controller.py:912-976 | recoverable errors and overflows that can be condensed are published and leave the agent running |
| AgentReactions.FailuresStopTheAgent | openhands/controller/agent_controller.py:863-976 | every other failure leads to exactly ERROR, or RATE_LIMITED where someone is told, with its notice and its reason |
| AgentReactions.IssuedEndIsReached | openhands/controller/agent_controller.py:515-540 | in every run a finish or rejection that the agent issued leaves the root controller finished or rejected once it is delivered to it |
| AgentReactions.RecoveryNeedsAnAnalysis | openhands/controller/agent_controller.py:613-630 | without a stuck analysis or with an unknown option loop recovery does nothing |
| AgentReactions.RecoveryIsAnnounced | openhands/controller/agent_controller.py:1304-1323 | plain recovery publishes the notice of waiting and then that of the loop |
| AgentReactions.RestartIsAnnounced | openhands/controller/agent_controller.py:1348-1389 | starting again publishes the notice of running, that of the loop, and a recall of the last user message's text |
| AgentReactions.StateChangesAreAnnounced | openhands/controller/agent_controller.py:673-725 | in every run of the system every change of state, of the root or of a delegate, is announced in the stream by the move that makes it |
| LoopRecoveryProofs.TruncateTwice | openhands/controller/agent_controller.py:1325-1346 | truncating at p and then at q is truncating at the smaller of the two, end id and message cache included |
| LoopRecoveryProofs.TruncateIsPrefix | openhands/controller/agent_controller.py:1330-1346 | truncation keeps the exact prefix, sets the end id to its last event and drops the cached message |
| LoopRecoveryProofs.LastUserMessageIsLast | openhands/controller/agent_controller.py:1353-1358 | the reused message is the last user message of the history, and there is none only if no event is one |
| LoopRecoveryProofs.RecoveryKeepsExactPrefix | openhands/controller/agent_controller.py:1304-1389 | options 1 and 2 keep the history up to the loop; option 2 ends RUNNING with a recall of the last user message of the uncut history, option 1 or a history without user message ends AWAITING_USER_INPUT with the slot as it was |
| LoopRecoveryProofs.RecoveryOption3Stops | openhands/controller/agent_controller.py:627-629 | option 3 stops, keeps the history and empties the slot |
| AgentRecalls.MoveKeepsTidy | openhands/controller/agent_controller.py:1286-1302 | no move makes a cached first user message differ from the first one in the stream, or an event sit elsewhere than at its id |
| AgentRecalls.RecallKindInEveryRun | openhands/controller/agent_controller.py:589-603 | in every run of a new conversation (which satisfies its hypothesis by `NewConversationIsTidy`) the recall for a user message asks for the workspace context exactly if no user message was published before it |
| Controller.EventStream.AddEvent | openhands/events/stream.py:163-203 | an event with an id is refused; any other gets the next id and its source and is appended |
| Controller.AgentController.AddHistory | openhands/controller/state/state_tracker.py:227-230 | bookkeeping and hidden events stay out of the history, others are appended |
| Controller.AgentController.FoundObservation | openhands/controller/agent_controller.py:639-647 | true exactly when some observation in the history has the given tool call |
| Controller.AgentController.Reset | openhands/controller/agent_controller.py:632-671 | does in place what the reset of the proofs does |
| Controller.AgentController.SetAgentStateTo | openhands/controller/agent_controller.py:673-725 | does in place what the state change of the proofs does, and leaves the delegate alone |
| Controller.AgentController.FirstUserMessage | openhands/controller/agent_controller.py:1286-1302 | returns and caches the first user message of the stream from the start position |
| Controller.AgentController.HandleMessageAction | openhands/controller/agent_controller.py:572-611 | a user message puts a recall into the slot and runs the agent; a waiting agent message waits |
| Controller.AgentController.HandleObservation | openhands/controller/agent_controller.py:542-570 | only an observation caused by the pending action, outside confirmation, frees the slot |
| Controller.AgentController.TruncateMemoryToPoint | openhands/controller/agent_controller.py:1325-1346 | cuts the history in place |
| Controller.AgentController.PerformLoopRecovery | openhands/controller/agent_controller.py:1304-1323 | cuts, waits for the user, and says so |
| Controller.AgentController.RestartWithLastUserMessage | openhands/controller/agent_controller.py:1348-1389 | cuts, runs, and handles the last user message again, or falls back to plain recovery |
| Controller.AgentController.HandleLoopRecoveryAction | openhands/controller/agent_controller.py:613-630 | dispatches the three options, and nothing without a stuck analysis |
| Controller.AgentController.StartDelegate | openhands/controller/agent_controller.py:735-794 | creates a fresh delegate on the same stream, with its task published and running if there is one |
| Controller.AgentController.HandleAction | openhands/controller/agent_controller.py:515-540 | dispatches an action |
| Controller.AgentController.ShouldStep | openhands/controller/agent_controller.py:413-452 | decides as the proofs assume whether an event makes the agent step |
| Controller.AgentController.IssueAction | openhands/controller/agent_controller.py:978-1035 | holds a runnable action pending, asks for confirmation if it is marked so, publishes it, and fails if it already has an id |
| Controller.AgentController.Step | openhands/controller/agent_controller.py:863-1038 | does in place what the step of the proofs does, for every outcome |
| Controller.AgentController.HandleEvent | openhands/controller/agent_controller.py:488-513 | history, handler and step for one event |
| Controller.AgentController.DelegateTool | openhands/controller/agent_controller.py:851-856 | finds the tool call of the newest delegate action |
| Controller.AgentController.EndDelegate | openhands/controller/agent_controller.py:796-861 | stops the delegate, publishes its result and forgets it |
| Controller.AgentController.OnEvent | openhands/controller/agent_controller.py:454-486 | routes an event to the delegate, to ending it, or to the controller itself, and leaves both fit for the next event |
| Controller.AgentController.MoveAll | openhands/controller/agent_controller.py:454-513 | carries out any sequence of moves and ends in the state the functions of the proofs compute |
| Controller.RunConversation | openhands/controller/agent_controller.py:127-214 | the same for a new controller on a new stream |
| Replay.KeepIsStable | openhands/controller/replay.py:30-40 | exactly the retained events are kept, each at the place the retained events before it leave for it |
| Replay.PrepareIsIdempotent | openhands/controller/replay.py:30-57 | preparing prepared events changes nothing |
| Replay.OnlyTheLastMayWait | openhands/controller/replay.py:44-54 | a message that still waits for a response is the final event and is as it was recorded |
| Replay.PrepareOnlyClearsWaiting | openhands/controller/replay.py:44-54 | preparing changes nothing of an event but the waiting flag of a message |
| Replay.ActionsAreStable | openhands/controller/replay.py:59-80 | the actions to be replayed are exactly those of the list, each at the place the actions before it leave for it |
| Replay.LoadedIsStable | openhands/controller/replay.py:95-105 | loading keeps exactly the events that are not from the environment, in order, unchanged but for the id |
| Replay.GetReplayEvents | openhands/controller/replay.py:89-105 | decodes everything or fails, drops events of the environment and erases ids |
| Replay.PrepareOfLoaded | openhands/controller/replay.py:89-105 | preparing a loaded trajectory is preparing the decoded one with ids erased |
| Replay.ReplayManager.constructor | openhands/controller/replay.py:30-57 | the two loops leave the prepared events |
| Replay.ReplayManager.ShouldReplay | openhands/controller/replay.py:66-80 | true exactly while recorded actions remain; loses none, and asking again moves nothing |
| Replay.ReplayManager.Step | openhands/controller/replay.py:82-87 | returns the first remaining action and leaves the others |
| Replay.ReplayAll | openhands/controller/agent_controller.py:906-909 | asking and stepping in turn yields the recorded actions, each once, in order, and nothing else |
| Lease.StartOnlyWhereUnheld | enterprise/server/clustered_conversation_manager.py:398-405 | the key can be set only where no node hosts, starts or is closing the conversation |
| Lease.MutualExclusion | enterprise/server/clustered_conversation_manager.py:390-484 | in every run of timely nodes at most one has a conversation in its loop map |
| Lease.OneHostPerConversation | enterprise/server/clustered_conversation_manager.py:217-218 | the same for conversation ids, if all starts of a conversation name the same user |
| Lease.FirstComesFirst | enterprise/server/clustered_conversation_manager.py:401-405 | of several nodes that find no live key any one can start, and then no other can |
| Lease.OneWinner | enterprise/server/clustered_conversation_manager.py:746-755 | after one node restarts a conversation another succeeds only after a delete or a full lease |
| Lease.NoFalseFailover | enterprise/server/clustered_conversation_manager.py:486-517 | a conversation without live key is held by no node |
| Lease.FailedStartsLapse | enterprise/server/clustered_conversation_manager.py:399-405 | a start that fails keeps others out for one lease at most and makes no node late |
| Lease.DeletesOutliveCrashes | enterprise/server/clustered_conversation_manager.py:642-651 | a delete that was sent still removes the key after its node crashed |
| Lease.LateRegistrationBreaksIt | enterprise/server/clustered_conversation_manager.py:401-405 | a run with two hosts after a registration that comes too late |
| Lease.LateRefreshBreaksIt | enterprise/server/clustered_conversation_manager.py:459-466 | a run with two hosts after a refresh that comes too late |
| Lease.LateDeleteBreaksIt | enterprise/server/clustered_conversation_manager.py:643-651 | a run with two hosts after a delete that lands too late |
| Lease.DeletingBeforePoppingBreaksIt | enterprise/server/clustered_conversation_manager.py:643-651 | with the delete before the pop, two timely hosts |
| Lease.TwoUsersTwoHosts | enterprise/server/clustered_conversation_manager.py:217-218 | any two different users naming one conversation can both host it, so the agreement asked for above cannot be dropped |
| ClusterNode.Redis.SetIfAbsent | enterprise/server/clustered_conversation_manager.py:401 | sets the key with a full lease exactly if it is not live |
| ClusterNode.ConversationManager.MaybeStartAgentLoop | enterprise/server/clustered_conversation_manager.py:390-420 | starts exactly if the key was not live; afterwards the key is live in either case |
| ClusterNode.ConversationManager.ScanUsers | enterprise/server/clustered_conversation_manager.py:449-454 | finds exactly the conversations with a live key, each with a user one of its keys names |
| ClusterNode.ConversationManager.UpdateStateInRedis | enterprise/server/clustered_conversation_manager.py:436-484 | refreshes exactly the keys of the local loops and of the local connections to scanned conversations |
| ClusterNode.ConversationManager.DisconnectFromStopped | enterprise/server/clustered_conversation_manager.py:486-543 | selects exactly the local connections whose conversation is neither hosted here nor has a live key |
| ClusterNode.ConversationManager.CloseSession | enterprise/server/clustered_conversation_manager.py:615-671 | removes all local connections, the loop, its key and those connections' keys, and nothing of any other conversation; without a local loop no key changes |
| ClusterNode.ConversationManager.ScanConnections | enterprise/server/clustered_conversation_manager.py:296-317 | finds for each connection with live entries some one of the conversations they name |
| ClusterNode.ConversationManager.CloseDisconnected | enterprise/server/clustered_conversation_manager.py:545-581 | closes only sessions past the threshold in a state other than running and none, without local connection, and every one of them that has no remote connection either; no other if each connected one has a connection of its own; and changes nothing else |
| ClusterNode.ClosingIsExactIff | enterprise/server/clustered_conversation_manager.py:308-316 | every scan leads to closing exactly the unconnected sessions if and only if each connected idle session has a connection with no live entry for another idle session |
| ClusterNode.SharedConnectionProtectsOne | enterprise/server/clustered_conversation_manager.py:308-316 | a connection with live entries for two idle conversations keeps only one of them open |
| ClusterNode.ConversationManager.HandleRemoteConversationStopped | enterprise/server/clustered_conversation_manager.py:713-755 | restarts exactly when user and conversation are known, the limit is kept and settings load, and then only through the absent key |
| ClusterRuns.StartFollows | enterprise/server/clustered_conversation_manager.py:399-405 | a start is acquire and register of the lease protocol if it succeeds, with a loop of that conversation that is still in the map dropped first |
| ClusterRuns.CloseAllFollows | enterprise/server/clustered_conversation_manager.py:642-651 | closing any sessions of a node is pop and delete of the lease protocol for each |
| ClusterRuns.RefreshFollows | enterprise/server/clustered_conversation_manager.py:456-466 | the periodic update is a refresh of the lease protocol, and is always possible |
| ClusterRuns.CallsFollowTheProtocol | enterprise/server/clustered_conversation_manager.py:390-671 | any sequence of calls on any number of nodes, crashes included, is one run of the lease protocol that passes through all its states, with the same keys, time and loops and each key written when the calls wrote it; that run is timely if the calls are |
| ClusterRuns.NodesExclude | enterprise/server/clustered_conversation_manager.py:390-484 | if before every call each node has itself written the keys of its loops less than a lease ago, at most one node has a conversation of a user in its map, and the key of every loop lasts for a lease from that write |
| ClusterRuns.PickedIsHostedNowhere | enterprise/server/clustered_conversation_manager.py:486-543 | and a connection that the failover of a node picks names a conversation that no node hosts |
| ClusterRuns.PickStopped | enterprise/server/clustered_conversation_manager.py:486-543 | the class picks just those connections |
| ClusterRuns.Perform | enterprise/server/clustered_conversation_manager.py:390-755 | each call on the classes does exactly what those runs take it to do |
| ClusterRuns.RunCluster | enterprise/server/clustered_conversation_manager.py:390-755 | new nodes on a new Redis go through such a run, whatever is called |
| TokenRefresh.UnexpiredStaysValid | enterprise/storage/auth_token_store.py:253-267 | a token loaded as unexpired at t is certain to pass the validity check at t' exactly when t' is before t + 870 |
| TokenRefresh.NoExpiryIsNeverExpiredAndNeverValid | enterprise/storage/auth_token_store.py:46-57 | a token without expiry is never refreshed and never valid |
| TokenRefresh.HeldTokenIsUnused | enterprise/storage/auth_token_store.py:176-215 | whoever refreshes under the lock holds a refresh token no one has used |
| TokenRefresh.RefreshTokensAreNeverReused | enterprise/storage/auth_token_store.py:166-243 | for any interleaving of callers no refresh token is shown to the provider after it was accepted |
| TokenRefresh.CallsReturnWholeVersions | enterprise/storage/auth_token_store.py:138-243 | in any run every call returns one whole committed row that was current during the call, or nothing only if there was no row at some moment of the call; a refresh happens only for a row that is expired |
| TokenRefresh.ARowIsAlwaysFound | enterprise/storage/auth_token_store.py:138-164 | in any run in which there always was a row, no call says that there is none |
| TokenRefresh.NobodyIsStuck | enterprise/storage/auth_token_store.py:166-251 | whatever others do, a call that has not ended can go on: waiting for the lock it may give up, and holding it it can let it go |
| TokenRefresh.FastPathIsLockedPath | enterprise/storage/auth_token_store.py:151-207 | on an unexpired row the unlocked read ends as the locked path would |
| TokenRefresh.LostCommitReusesTheToken | enterprise/storage/auth_token_store.py:217-232 | without the commit the next caller shows the consumed token again |
| TokenRefresh.AuthTokenStore.LoadTokens | enterprise/storage/auth_token_store.py:102-251 | an uninterrupted call consults the provider exactly if the row is expired at both looks, and returns the row as it is afterwards |
| TokenRefresh.LoadTokensInSteps | enterprise/storage/auth_token_store.py:102-251 | a call on the class that nobody interrupts takes the steps of the interleaved model and ends alike, with the same record |
| TokenRefresh.SecondLook | enterprise/storage/auth_token_store.py:166-243 | what a caller that waited for the lock returns, stores and shows to the provider, for every answer of the check |
| TokenRefresh.StoreTokensInSteps | enterprise/storage/auth_token_store.py:59-100 | so does a store of tokens |
| TokenRefresh.AuthTokenStore.IsAccessTokenValid | enterprise/storage/auth_token_store.py:253-267 | checks without refreshing |
| OrgCascade.CascadeKeepsMembershipsValid | enterprise/storage/org_store.py:336-373 | after a committed cascade every user's current organization is a membership and none is the deleted one |
| OrgCascade.CascadeRemovesExactlyTheOrg | enterprise/storage/org_store.py:283-334 | no row of the organization is left, its conversations included, and no row of another one is gone |
| OrgCascade.CascadeIsRowByRow | enterprise/storage/org_store.py:283-373 | in each table the rows of the organization, or of its conversations, are gone and all others are there unchanged |
| OrgCascade.CascadeIsIdempotent | enterprise/storage/org_store.py:275-393 | a second cascade changes nothing |
| OrgCascade.OwnershipFirstLosesTheMetadata | enterprise/storage/org_store.py:284-314 | in the other order no conversation metadata would be deleted |
| OrgCascade.OrgDatabase.DeleteOwnedRows | enterprise/storage/org_store.py:283-334 | the nine deletes remove exactly the rows the organization owns |
| OrgCascade.OrgDatabase.Reassign | enterprise/storage/org_store.py:355-367 | exactly the users of the organization move, each to another membership |
| OrgCascade.OrgDatabase.DeleteOrgCascade | enterprise/storage/org_store.py:262-401 | commits exactly when the organization exists, no user of it is without another membership and no statement fails, and then row by row; otherwise every table is unchanged |
| WebhookScheduler.WebhookStore.FilterRows | enterprise/storage/gitlab_webhook_store.py:172-195 | the pending rows stamped longest ago, in order, up to the limit |
| WebhookScheduler.ResourceIsTheOnlyId | enterprise/storage/gitlab_webhook_store.py:16-28 | a row stands for a group or a project exactly if it has that id alone |
| WebhookScheduler.WebhookStore.UpdateWebhook | enterprise/storage/gitlab_webhook_store.py:76-98 | works exactly for a row with one id, and changes and stamps exactly the rows that share it |
| WebhookScheduler.WebhookStore.DeleteWebhook | enterprise/storage/gitlab_webhook_store.py:100-134 | removes exactly the rows of the resource |
| WebhookScheduler.WebhookStore.ResetForReinstallation | enterprise/storage/gitlab_webhook_store.py:287-339 | makes exactly the rows of the resource pending, at the back of the queue |
| WebhookScheduler.WebhookStore.Install | enterprise/integrations/gitlab/webhook_installation.py:41-194 | the replies decide exactly whether the row is removed, installed or left pending, and whether the turn ends the run; no row of another resource and no id is touched |
| WebhookScheduler.WebhookStore.Serve | enterprise/sync/install_gitlab_webhooks.py:165-211 | whatever happens, the rows of the resource end up stamped or gone, with the outcome of the installation kept |
| WebhookScheduler.WebhookStore.InstallWebhooks | enterprise/sync/install_gitlab_webhooks.py:116-211 | a run serves its batch in order until just before the first malformed row or just after the first unexpected exception, and so the whole batch if each row has one id and meets none; with unique ids and working stamps each row served gets its outcome and its stamp and all others, malformed ones included, are untouched |
| WebhookScheduler.ServedWereAhead | enterprise/sync/install_gitlab_webhooks.py:156-201 | every row served while another waits was stamped no later than that one |
| WebhookScheduler.TurnShrinksAhead | enterprise/sync/install_gitlab_webhooks.py:156-201 | a complete run takes a hundred rows out of the queue ahead of a waiting row, an aborted one at least one, and nothing joins ahead of it |
| WebhookScheduler.BoundedWaiting | enterprise/sync/install_gitlab_webhooks.py:156-201 | with k rows ahead and no malformed one among them a row sees at most k / 100 complete runs, and at most k runs, that do not serve it |
| WebhookScheduler.StarvesBehindMalformed | enterprise/sync/install_gitlab_webhooks.py:159-201 | a row stamped later than a malformed pending row is never served, over any number of runs |
| WebhookScheduler.MalformedOldestStopsTheJob | enterprise/storage/gitlab_webhook_store.py:16-28 | with a malformed row strictly oldest, no run ever changes anything |
| WebhookScheduler.ServedIffNoMalformedEarlier | enterprise/sync/install_gitlab_webhooks.py:156-201 | in more runs than a row has others ahead of it, it is served if and only if no malformed pending row is stamped earlier, ties aside |
| WebhookScheduler.UnstampedRowWaitsForAll | enterprise/storage/gitlab_webhook.py:40-45 | a row without stamp is not served while a hundred stamped rows are pending |
| ConversationStarter.ProactiveConversationStore.StoreWorkflowInformation | enterprise/storage/proactive_conversation_store.py:25-128 | overrides the stored or fetched runs by the delivered one and returns them exactly if nothing was sent before, all have failed or completed and one has failed |
| ConversationStarter.StoredRunsAreOverridden | enterprise/storage/proactive_conversation_store.py:74-126 | until the send the stored runs are the first fetched ones overridden by the deliveries in order |
| ConversationStarter.NothingAfterSending | enterprise/storage/proactive_conversation_store.py:70-72 | after the send nothing is stored or returned |
| ConversationStarter.ReturnedExactlyAtFirstReady | enterprise/storage/proactive_conversation_store.py:90-128 | the group is returned by exactly the delivery that first leaves no run pending and one failed |
| ConversationStarter.ReturnedAtMostOnce | enterprise/storage/proactive_conversation_store.py:70-128 | over any deliveries the group is returned at most once |
| ConversationStarter.SentIffReady | enterprise/storage/proactive_conversation_store.py:94-117 | every reachable entry is marked sent exactly if no stored run is pending and one failed |
| ConversationStarter.StartsAreReadyStretches | enterprise/storage/proactive_conversation_store.py:130-147 | with cleanings in between, exactly one conversation is started for each stretch between them whose overridden runs become ready |
| ConversationStarter.OneStartPerCleaning | enterprise/storage/proactive_conversation_store.py:130-147 | so there is at most one start more than there are cleanings |
| ConversationStarter.CleaningAllowsASecondStart | enterprise/storage/proactive_conversation_store.py:130-147 | and that bound is met |
| ConversationOverlap.OneRowIsSerial | enterprise/storage/proactive_conversation_store.py:49-128 | an interleaving of transactions that leaves at most one row acts as the committed deliveries one after the other: same row, same groups returned |
| ConversationOverlap.NoOverlapOneRow | enterprise/storage/proactive_conversation_store.py:54-68 | two rows for one entry come only from two transactions that both found none, the second while the first was under way, and both committed |
| ConversationOverlap.OverlapInsertsTwice | enterprise/storage/proactive_conversation_store.py:54-68 | and such two transactions always insert two rows |
| ConversationOverlap.UpdatesReachEveryRow | enterprise/storage/proactive_conversation_store.py:92-109 | an update writes every row of the entry |
| ConversationOverlap.ReturnedOnceWithoutOverlap | enterprise/storage/proactive_conversation_store.py:49-128 | in every interleaving without such an overlap the group is returned at most once |
| ConversationOverlap.ReturnedOnceIffNoOverlap | enterprise/storage/proactive_conversation_store.py:49-128 | an interleaving returns the group at most once, whatever is delivered, if and only if no such overlap occurs in it |
| ConversationOverlap.TwoFirstDeliveriesBothReturn | enterprise/storage/proactive_conversation_store.py:54-68 | two first deliveries that both read before either inserts both return a group |
| ConversationOverlap.FindingNothingBlocksNobody | enterprise/storage/proactive_conversation_store.py:49-60 | a transaction that found no row holds no lock, so others go on |
| ResendSync.SyncJob.Backfill | enterprise/sync/resend_keycloak.py:344-392 | records exactly the contacts unless it fails, and only contacts if it does |
| ResendSync.SyncJob.AddUser | enterprise/sync/resend_keycloak.py:495-520 | an address is recorded before it is added, added exactly if both calls succeed, and a failure leaves the table as it was exactly if a failed record leaves nothing |
| ResendSync.AddressIgnoresCase | enterprise/sync/resend_keycloak.py:477 | two spellings are one address exactly if they differ in the case of letters only |
| ResendSync.AddressesAreTheUsers | enterprise/sync/resend_keycloak.py:471-477 | the addresses of a page are those of its users that have one, in order |
| ResendSync.SyncJob.ProcessUser | enterprise/sync/resend_keycloak.py:471-535 | one address is counted once, under the one kind it belongs to |
| ResendSync.SyncJob.ProcessPage | enterprise/sync/resend_keycloak.py:471-535 | the account of a page: every address counted once, the added ones valid and new, and what the run believes to be synced is the table |
| ResendSync.AccountsJoin | enterprise/sync/resend_keycloak.py:457-537 | the accounts of two lists of addresses, one after the other, are the account of both |
| ResendSync.RejectsIgnoresValid | enterprise/sync/resend_keycloak.py:486-489 | which addresses are rejected does not depend on the valid ones learnt meanwhile |
| ResendSync.SyncJob.SyncUsersToResend | enterprise/sync/resend_keycloak.py:395-539 | a run, ending anywhere, adds only valid addresses that were not recorded; a completed one accounts for every fetched address, and it completes without error if all calls succeed |
| ResendSync.SyncRepeatedly | enterprise/sync/resend_keycloak.py:395-539 | over any sequence of runs and crashes no address is added twice, nor one the table held at the start |

## Assumptions the theorems name

* `Lease.Timely`: each node registers, refreshes, or gets its delete to Redis before the lease of its own last
  write has lapsed. The lemmas `LateRegistrationBreaksIt`, `LateRefreshBreaksIt` and `LateDeleteBreaksIt` show that no part of it can be dropped. `ClusterRuns.TimelyAt` says it of calls: a node has itself written the key
  of each of its loops, by the start or a periodic update, less than a lease ago.
* `TokenRefresh.Assumed`: the provider answers with refresh tokens it never issued before, `store_tokens` writes
  only such tokens, and an accepted refresh is committed.
* `AgentAnswers.Honest`: only resets write the two synthetic errors, and actions come without an id, as the agent
  and the decoder of recorded trajectories make them. The model itself covers actions that come with an id: they
  are refused by the stream, which ends in ERROR.
* `WebhookScheduler.Unique` and `StampsWork`: group and project ids are unique and stamps can be written; `Waits`
  asks that the clock is past the waiting row's stamp. Malformed rows, with both ids or none, are covered: `Clear`
  and `ServedIffNoMalformedEarlier` say exactly what they hold up.

## Left out

- The text of messages, thoughts and error reasons, metrics, logging, status callbacks and saving of the state.
- The agent, the language model, security analyzers and the classification of exceptions: an arbitrary outcome per step.
- The stuck detector: an arbitrary analysis with an arbitrary start of the loop.
- Interleaving of other threads within one handler: a handler is one atomic step.
- The history rewrite when a controller is closed; a delegate is dropped after it is closed, and the root controller handles no event afterwards.
- The replay cursor inside the controller's step: a replayed action is one of the arbitrary actions of a step, and `ReplayAll` shows the cursor alone.
- Aliasing of recorded events: the replay manager clears the waiting flag on values, so an event object that occurs twice in a trajectory is not shared.
- Publishing and receiving of cluster messages, socket effects, and closing of the oldest conversations when a user has too many.
- Interleaving of the awaits of two calls on one node: in `ClusterRuns` a call is atomic, while `Lease` interleaves its steps.
- The order in which idle sessions are closed, and the time limit on closing them.
- Redis as such: scans are taken as one atomic read, and times are whole milliseconds.
- Creation of the token row by two concurrent first stores; the row has a unique index.
- Changes to webhook rows by others between two rows of one run: a run is one turn, other changes are turns between runs.
- GitLab, LiteLLM, Keycloak and Resend: replies and failures at every call are parameters.
- The format of an email address, a parameter; lower-casing covers ASCII letters only.
- Overlapping deliveries: a read that waited for the lock finds the rows there are then, not those of the moment it began; the two differ only once there are two rows. Cleanings are modelled between deliveries, not within them.
- The recall for a user message that reaches a delegate from before the delegate's start: `RecallKindInEveryRun` is about the root controller.
- Two syncs running at the same time.
- Routers, settings stores, invitations, API keys, device codes, migrations and the frontend, which would only add easy members.
