# Verified model of the notification gateway and its plugin

This project models the in-memory state machines of the notification system and proves
what they keep over every run.

- **Instance registry** (`CommandOutcomes`, `ControlFlights`, `RegistryState`,
  `RegistryEvents`, `RegistryRuns`, `RegistryTheorems`, `RegistryHistory`,
  `RegistryPromotion`, `RegistryRequests`, `RegistryOutcomes`, `RegistryWitnesses`,
  `RegistryRanks`, `RegistryAdmission`, `RegistryGates`, `RegistryCommands`,
  `InstanceRegistry`): the gateway's records, ownership, connections, requests in flight
  and command outcomes. `RegistryState` and `RegistryEvents` give each operation as a
  function of the whole state, with the recursion of disconnecting, promoting and sending
  in closed form; the class `InstanceRegistry` does the operations in place, recursion
  included, and is proved to compute those functions.
- **Session rounds** (`SessionRounds`, `SessionActions`, `SessionTimers`, `SessionCalls`,
  `SessionMachine`): what is reported of a session as a function of the signals heard about
  it, the records and their timers as values, runs of calls and timers, and the object that
  does it all.
- **Delivery** (`BoundedQueue`, `QueuePump`, `PumpPriorities`, `EventDedupe`,
  `DedupeAnswers`, `RateLimiter`).
- **Refresh tokens** (`RefreshTokens`, `RefreshAnswers`): the tables, their transactions and
  the calls that interleave over them, the scheme of section 5.2.2.3 of RFC 6819 and section
  4.14.2 of RFC 9700.
- **Push messages** (`PushCompaction`, `PushText`), **message cache** (`MessageCache`,
  `MessageAnswers`) and **control connection** (`ControlChannel`, `ChannelEndings`,
  `ChannelService`). `Prelude` holds what they share.

Code between two awaits is one step; timers, socket events and promise settlements are
steps of their own; clocks do not go back. `dafny verify dfyconfig.toml` checks it all.

## Where the code departs from what it sets out to do

- `register` (instance-registry.ts:1142-1145) closes the socket of `existing.connection`
  after `disconnect` has cleared that field, so the statement dereferences an absent
  connection whenever it is reached: `RegistryRuns.ReplacedConnectionIsAlreadyCleared`. It
  is reached exactly when another open connection holds the instance's record
  (`RegistryWitnesses.EmptyConnectionIsReadExactly`), as after a run of three events
  (`ReplacementHappens`). Both continuations are modelled, stopping there and going on (the
  flag `resumes`), and every theorem holds for both.
- `rememberStale` (instance-registry.ts:1031-1040) keeps the old place of an id that goes
  stale again, so the id that went stale last may be the next one forgotten:
  `RegistryRequests.RepeatedStaleIdIsForgottenFirst`, with the exact condition in
  `StaleIdIsForgottenOnlyFromTheFront` and a run of snapshots in which it happens in
  `RegistryWitnesses.LastStaleIdIsForgottenInARun`.
- `rotateRefreshToken` (auth.repository.ts:326-361) does not look at the family again, so a
  refresh that found it standing succeeds although a logout or a reset revoked it in the
  meantime: `RefreshTokens.LogoutMayBeOvertaken`. It succeeds exactly when its token is
  still unrotated (`RotationSucceedsExactly`), and at most once after the revocation
  (`OneExchangeAfterRevocationAtMost`).
- With a time to live of zero a recorded outcome stays in the cache, expired, until the
  next operation. Right after a command was recorded the cache holds nothing expired
  exactly when the time to live is positive or the capacity is zero:
  `CommandOutcomes.AfterRecordCacheIsLogSuffix`.

## Model

| member | source | states |
|---|---|---|
| RegistryTheorems.ReachableStatesAreConsistent | apps/gateway/src/modules/control/instance-registry.ts:1140-1278 | in every reachable state: a place is owned by i exactly when that user's record i is controllable and registered there; a record is offline exactly when it has no connection; a record's connection is open, of its user and instance; every waiter's place has an owner; sequence numbers are distinct; requests in flight, timers and tunnels belong to open connections; an accepted outcome has its own command in flight, on a connection of its user and instance; stale memories are bounded |
| RegistryTheorems.StepKeepsInv | apps/gateway/src/modules/control/instance-registry.ts:328-1278 | each of the eighteen kinds of event keeps all of the above, whichever sends fail |
| RegistryTheorems.ControlPassesToFirstReachableWaiter | apps/gateway/src/modules/control/instance-registry.ts:1226-1278 | when an owner's connection goes, its place passes to the lowest-sequence waiter that can be told |
| RegistryTheorems.PlaceIsTakenIfAnybodyIsReachable | apps/gateway/src/modules/control/instance-registry.ts:1257-1278 | the place is left without owner exactly when no waiter can be told |
| RegistryTheorems.WaitersAskedInVainGoOffline | apps/gateway/src/modules/control/instance-registry.ts:1257-1310 | the old owner and every waiter asked before the new owner end offline, and no other record changes |
| RegistryTheorems.OnlyAskedConnectionsAreLost | apps/gateway/src/modules/control/instance-registry.ts:1188-1310 | exactly the connections asked in vain are lost, and of the requests in flight exactly theirs |
| RegistryTheorems.CollectTargetsStayLive | apps/gateway/src/modules/control/instance-registry.ts:505-541 | a failed request to one target of a collection costs no other target its route |
| RegistryTheorems.CloseAllEmptiesTheRegistry | apps/gateway/src/modules/control/instance-registry.ts:773-778 | after closeAll no connection, owner, request in flight, armed timer or tunnel is left and every record is offline |
| RegistryTheorems.RevokedKeyHasNoConnection | apps/gateway/src/modules/control/instance-registry.ts:763-771 | after a key is revoked nothing is connected or in flight under it |
| RegistryState.PromotedKeepsInv | apps/gateway/src/modules/control/instance-registry.ts:1257-1278 | handing a vacated place out, over any number of failing sends, restores the invariant |
| RegistryState.DisconnectedKeepsInv | apps/gateway/src/modules/control/instance-registry.ts:1188-1255 | disconnecting keeps the invariant and removes the connection for good |
| RegistryPromotion.AppointeeIsTold | apps/gateway/src/modules/control/instance-registry.ts:1257-1278 | if the first in line can be told, promoting is appointing it |
| RegistryPromotion.StartingOverIsPromoting | apps/gateway/src/modules/control/instance-registry.ts:1257-1310 | if it cannot, the recursion through its disconnect comes to the same state as promoting from the start, so the mutual recursion computes the closed form |
| RegistryRuns.ReplacedConnectionIsAlreadyCleared | apps/gateway/src/modules/control/instance-registry.ts:1140-1150 | whenever a registration replaces a connected record, the record's connection is empty by the time its socket is read, and the registering connection has survived |
| RegistryWitnesses.EmptyConnectionIsReadExactly | apps/gateway/src/modules/control/instance-registry.ts:1140-1150 | a registration reads the socket of an empty connection exactly when another open connection holds the instance's record |
| RegistryWitnesses.ReplacementHappens | apps/gateway/src/modules/control/instance-registry.ts:1140-1150 | a plugin that connects, registers and connects again gets there |
| RegistryRuns.RegisteredKeepsInv | apps/gateway/src/modules/control/instance-registry.ts:1140-1186 | a registration keeps the invariant, replaced or conflicting or neither, and whether or not the answer can be sent |
| RegistryRuns.EnrolledKeepsInv | apps/gateway/src/modules/control/instance-registry.ts:1151-1186 | first owner wins: a registration takes a free place, waits for a taken one, or is incompatible, and leaves no waiter stranded |
| RegistryRuns.SentKeepsInv | apps/gateway/src/modules/control/instance-registry.ts:1292-1310 | a send keeps the invariant, failing included |
| RegistryRuns.CommandIssuedKeepsInv | apps/gateway/src/modules/control/instance-registry.ts:543-694 | recording a command as accepted and putting it in flight keep the two in step, whatever the cache evicts |
| RegistryRuns.CommandAnsweredKeepsInv | apps/gateway/src/modules/control/instance-registry.ts:891-997 | a command result settles its outcome together with its flight, also when another connection has the same command id in flight |
| RegistryRuns.SnapshotAnsweredKeepsInv | apps/gateway/src/modules/control/instance-registry.ts:858-889 | a snapshot result keeps the invariant, the bound on stale ids included |
| RegistryRuns.TimedOutKeepsInv | apps/gateway/src/modules/control/instance-registry.ts:456-474 | a timer that fires closes its own request and, for a command, its outcome |
| RegistryRuns.ForgottenKeepsInv | apps/gateway/src/modules/control/instance-registry.ts:477-496 | forgetting an offline record strands nobody |
| RegistryHistory.EveryRequestIsInFlightOrSettledOnce | apps/gateway/src/modules/control/instance-registry.ts:456-736 | every request ever sent is either in flight, under one timer and an open connection, or was settled once: by a result from its own connection, its timer, or the loss of its connection |
| RegistryHistory.RequestEndsByResultTimerOrDisconnect | apps/gateway/src/modules/control/instance-registry.ts:839-997 | a single event ends a request only in one of those three ways |
| RegistryHistory.OneCommandInFlightPerRequest | apps/gateway/src/modules/control/instance-registry.ts:543-694 | at most one answer and one decision are in flight for a request of a connection |
| RegistryHistory.SettledOutcomeNeverReopens | apps/gateway/src/modules/control/instance-registry.ts:1053-1112 | a settled, unexpired outcome never reads accepted again |
| RegistryHistory.StepRemembers | apps/gateway/src/modules/control/instance-registry.ts:328-1278 | no event reissues a connection or a timer, rewrites the history of settled requests, or makes an outcome accepted except by a command |
| RegistryRequests.SnapshotIsTheProjection | apps/gateway/src/modules/control/instance-registry.ts:1005-1029 | after a snapshot the projected requests are exactly those of the snapshot, each by its last mention |
| RegistryRequests.CommandsFollowTheSnapshot | apps/gateway/src/modules/control/instance-registry.ts:543-600 | right after a snapshot a command goes through exactly when the snapshot's last mention of its request is of its kind and session and no such command is in flight on the connection |
| RegistryRequests.ConfirmedRequestConflicts | apps/gateway/src/modules/control/instance-registry.ts:891-924 | after a confirmed command any further command on its request is refused as a conflict |
| RegistryRequests.StaleIdIsForgottenOnlyFromTheFront | apps/gateway/src/modules/control/instance-registry.ts:1031-1040 | a stale id is forgotten exactly when a new id arrives at a full memory whose first it is |
| RegistryRequests.RepeatedStaleIdIsForgottenFirst | apps/gateway/src/modules/control/instance-registry.ts:1031-1040 | going stale again does not refresh an id |
| RegistryWitnesses.LastStaleIdIsForgottenInARun | apps/gateway/src/modules/control/instance-registry.ts:1005-1040 | any 256 requests and one more, brought and taken by snapshots: the request that went stale last before the newcomer is the one forgotten, all others are kept |
| RegistryRanks.NumberIsKept | apps/gateway/src/modules/control/instance-registry.ts:1172-1172 | over every run, as long as an instance is recorded it keeps its sequence number, whatever becomes of its connection and however often it registers again |
| RegistryRanks.StepIsRanked | apps/gateway/src/modules/control/instance-registry.ts:1172-1172 | no event changes the number of a record, and a new record gets a higher one than any there was |
| RegistryRanks.EarlierInstanceGoesFirst | apps/gateway/src/modules/control/instance-registry.ts:1172-1278 | over every run nobody first recorded after an instance that stayed recorded gets a place while that instance waits for it and can be told, even if it was away and came back |
| RegistryRanks.ReturningWaiterKeepsItsRank | apps/gateway/src/modules/control/instance-registry.ts:1172-1172 | no event reverses the order of two records |
| RegistryRanks.RecordsAreKeptUntilForgotten | apps/gateway/src/modules/control/instance-registry.ts:328-1278 | no event but a registration and a request to forget takes a record away |
| RegistryRanks.ForgottenExactly | apps/gateway/src/modules/control/instance-registry.ts:477-489 | a request to forget takes the named record exactly when nobody is connected as it, and no other |
| RegistryAdmission.RegistrationTakesHold | apps/gateway/src/modules/control/instance-registry.ts:1140-1186 | a registration that can be answered leaves the instance recorded on its connection with a fresh projection: incompatible by its protocol, waiting if the place has an owner, else the owner; other owners, records, requests and outcomes stay, but for offline records of the place |
| RegistryAdmission.UnansweredRegistrationIsUndone | apps/gateway/src/modules/control/instance-registry.ts:1140-1310 | one that cannot be answered ends with its connection gone and its record offline |
| RegistryAdmission.DisconnectLosesOnly | apps/gateway/src/modules/control/instance-registry.ts:1188-1310 | a disconnect costs its own connection and those of waiters that cannot be told, no other |
| RegistryAdmission.RevokedKeySparesOthers | apps/gateway/src/modules/control/instance-registry.ts:763-771 | revoking a key leaves every connection under another key, unless it is a waiter's that cannot be told |
| RegistryGates.RequestsGoToOwnersExactly | apps/gateway/src/modules/control/instance-registry.ts:551-560 | in a consistent state the connection a request is routed to is exactly the open one of an instance that owns a place |
| RegistryGates.UnmentionedRequestIsNotFound | apps/gateway/src/modules/control/instance-registry.ts:561-566 | over every run a command on a request that no snapshot ever mentioned is not found, never a conflict |
| RegistryGates.DroppedRequestConflicts | apps/gateway/src/modules/control/instance-registry.ts:561-566 | a command on a pending request that a snapshot no longer mentions is a conflict right after, if no more than 256 were pending; a request that had been stale before must not lose its old place in the memory to the others |
| RegistryGates.UnconfirmedResultChangesNoRequest | apps/gateway/src/modules/control/instance-registry.ts:891-924 | a result other than a confirmation leaves every record as it was, projection and stale memory included |
| RegistryGates.ConfirmationChangesItsRequestOnly | apps/gateway/src/modules/control/instance-registry.ts:891-924 | a confirmation changes what is known of its own request in its own record only |
| RegistryCommands.CommandGoesOutOrIsLost | apps/gateway/src/modules/control/instance-registry.ts:543-694 | a command that passes the gate waits under a new timer for its result, or is settled with the connection it cost; any other changes nothing |
| RegistryCommands.PromptGoesOutOrIsLost | apps/gateway/src/modules/control/instance-registry.ts:695-736 | so does a prompt, unless it has no route or its command id is in flight |
| RegistryCommands.CatalogRequestGoesOutOrIsLost | apps/gateway/src/modules/control/instance-registry.ts:456-474 | so does a request for a catalog |
| RegistryCommands.ResultIsRecorded | apps/gateway/src/modules/control/instance-registry.ts:891-997 | a result from the command's own plugin ends its flight and gives its unexpired outcome that status; any other changes nothing |
| RegistryCommands.TimeoutIsRecorded | apps/gateway/src/modules/control/instance-registry.ts:581-596 | a timer that fires ends its flight and leaves a command's outcome unknown |
| RegistryCommands.CommandIsRecorded | apps/gateway/src/modules/control/instance-registry.ts:1053-1078 | a command that goes through is recorded as accepted exactly unless an unexpired outcome has its id, and no other outcome is added |
| RegistryCommands.StatusSaysWhatHappened | apps/gateway/src/modules/control/instance-registry.ts:1053-1112 | an unexpired outcome changes only to the status of a result of its command, or to unknown by another event |
| RegistryCommands.CommandIsFoundExactly | apps/gateway/src/modules/control/instance-registry.ts:746-761 | over every clocked run a command that went through at t is found exactly before t + ttl and while fewer than capacity have gone through after it, none of them under its id |
| CommandOutcomes.RunTracks | apps/gateway/src/modules/control/instance-registry.ts:1053-1121 | over every run of records, settlements, lookups and prunings the cache holds the newest unexpired commands of the log, as many as the capacity, in order |
| CommandOutcomes.AfterRecordCacheIsLogSuffix | apps/gateway/src/modules/control/instance-registry.ts:1053-1121 | after each record the unexpired cache is the longest suffix of the log that is unexpired and within capacity, and it is all of the cache exactly when the time to live is positive or the capacity zero |
| CommandOutcomes.LiveCommandIsMissedOnlyWhenCrowdedOut | apps/gateway/src/modules/control/instance-registry.ts:746-761 | an unexpired command is found exactly when fewer than capacity commands were recorded after it |
| RegistryOutcomes.RegistryOutcomesAreTheLogsTail | apps/gateway/src/modules/control/instance-registry.ts:1053-1121 | in every run of the whole registry, failing sends and promotions included, the outcomes are the newest unexpired commands of those that went through |
| RegistryOutcomes.OwnCommandIsMissedOnlyWhenCrowdedOut | apps/gateway/src/modules/control/instance-registry.ts:746-761 | so an unexpired command that went through is found exactly while fewer than capacity have gone through after it |
| CommandOutcomes.SettledTwice | apps/gateway/src/modules/control/instance-registry.ts:1102-1113 | settling commands one after the other at one instant is settling them together |
| CommandOutcomes.OutcomeCache.Record | apps/gateway/src/modules/control/instance-registry.ts:1053-1100 | recording in place computes the function the run theorems are about |
| CommandOutcomes.OutcomeCache.Settle | apps/gateway/src/modules/control/instance-registry.ts:1102-1113 | as does settling |
| CommandOutcomes.OutcomeCache.OutcomeFor | apps/gateway/src/modules/control/instance-registry.ts:746-761 | a lookup finds the user's own unexpired command exactly if there is one |
| ControlFlights.IssueKeepsValid | apps/gateway/src/modules/control/instance-registry.ts:543-736 | a new request keeps one entry per timer, one timer per entry |
| ControlFlights.CloseKeepsValid | apps/gateway/src/modules/control/instance-registry.ts:858-997 | closing a request moves it once from in flight to settled |
| ControlFlights.CloseThenDrop | apps/gateway/src/modules/control/instance-registry.ts:1188-1225 | deleting a connection's requests one by one is dropping them all |
| ControlFlights.DropTwice | apps/gateway/src/modules/control/instance-registry.ts:1188-1225 | losing connections one after the other is losing them together |
| InstanceRegistry.InstanceRegistry.Disconnect | apps/gateway/src/modules/control/instance-registry.ts:1188-1255 | the recursive in-place disconnect ends in the closed-form state, and terminates as connections run out |
| InstanceRegistry.InstanceRegistry.Promote | apps/gateway/src/modules/control/instance-registry.ts:1257-1278 | the in-place promotion, a frame sent and perhaps a disconnect, ends in the closed-form state |
| InstanceRegistry.InstanceRegistry.Send | apps/gateway/src/modules/control/instance-registry.ts:1292-1310 | a failed send disconnects |
| InstanceRegistry.InstanceRegistry.FindFirstInLine | apps/gateway/src/modules/control/instance-registry.ts:1257-1270 | the scan finds the waiter with the lowest sequence, or that there is none |
| InstanceRegistry.InstanceRegistry.SettleRequests | apps/gateway/src/modules/control/instance-registry.ts:1188-1225 | the deleting loops settle exactly the requests of the connection and their outcomes |
| InstanceRegistry.InstanceRegistry.Register | apps/gateway/src/modules/control/instance-registry.ts:1140-1186 | registering in place is the registration event |
| InstanceRegistry.InstanceRegistry.PruneOffline | apps/gateway/src/modules/control/instance-registry.ts:1406-1421 | the loop deletes exactly the user's other offline records of the place |
| InstanceRegistry.InstanceRegistry.RouteCommand | apps/gateway/src/modules/control/instance-registry.ts:543-694 | answers and decisions pass the gates in order, then go in flight; the answer says which gate stopped them |
| InstanceRegistry.InstanceRegistry.CheckCommand | apps/gateway/src/modules/control/instance-registry.ts:543-600 | not found, conflict or go, by route, projection, staleness, kind and session, and what is in flight |
| InstanceRegistry.InstanceRegistry.SendPrompt | apps/gateway/src/modules/control/instance-registry.ts:695-744 | a prompt is refused while the same command id is in flight on the connection |
| InstanceRegistry.InstanceRegistry.CollectPending | apps/gateway/src/modules/control/instance-registry.ts:505-541 | the targets are asked in turn, failing sends included |
| InstanceRegistry.InstanceRegistry.HandleCommandResult | apps/gateway/src/modules/control/instance-registry.ts:891-997 | a result from the right connection and instance closes, settles and, if confirmed, marks the request stale |
| InstanceRegistry.InstanceRegistry.HandleSnapshot | apps/gateway/src/modules/control/instance-registry.ts:858-889 | a snapshot from the right connection closes its request and replaces the projection |
| InstanceRegistry.InstanceRegistry.CloseAll | apps/gateway/src/modules/control/instance-registry.ts:773-778 | all five maps end empty |
| SessionRounds.CompletionIsReportedExactly | packages/plugin/src/state-machine.ts:427-465 | a completion with elapsed e is reported exactly when the debounce window closes on an open idle of a round not yet over, and e is the time from the round's first busy or retry to that idle, 0 if there was none |
| SessionRounds.FailureIsReportedExactly | packages/plugin/src/state-machine.ts:636-672 | a failure or stop is reported exactly when the round is not over, with the working time up to the open idle, or up to now |
| SessionRounds.PhaseIsExplained | packages/plugin/src/state-machine.ts:427-505 | after every history the phase, its start and its frozen time are determined by the round's start, its first active signal and its open idle |
| SessionRounds.TerminalsAreSeparatedByWork | packages/plugin/src/state-machine.ts:427-447 | between two terminals of a session there is a busy, a retry or a disposal |
| SessionRounds.RecordedOutcomeIsHighestRanked | packages/plugin/src/state-machine.ts:556-672 | the recorded outcome is one that was seen since the last busy, retry or disposal, and none seen since ranks higher |
| SessionRounds.PendingMeansRaisedAndNotCleared | packages/plugin/src/state-machine.ts:325-399 | an action is pending exactly when it was raised and nothing cleared it since |
| SessionRounds.ResolutionFollowsItsRequest | packages/plugin/src/state-machine.ts:620-628 | a resolution is reported only for a reply to a request of the same kind and id, raised before and not cleared in between |
| SessionRounds.RepeatedRequestWasClearedBetween | packages/plugin/src/state-machine.ts:353-383 | the same action is raised twice only if something cleared it in between |
| SessionRounds.OneProviderActionPending | packages/plugin/src/state-machine.ts:571-610 | at most one provider action is pending |
| SessionActions.RequestIsPassedOnExactly | packages/plugin/src/state-machine.ts:340-613 | over every history an input reports action_required for a key with some details exactly when it asks for that key with those details (a question, a permission, a retry's provider action) and every earlier input asking for it was settled in between |
| SessionActions.ResolutionIsReportedExactly | packages/plugin/src/state-machine.ts:620-628 | an input reports action_resolved exactly when it replies to a question or permission asked for and not settled since |
| SessionActions.PendingMeansOpen | packages/plugin/src/state-machine.ts:340-628 | an action is pending exactly when it was asked for and not settled since |
| SessionActions.StatusIsTheLatest | packages/plugin/src/state-machine.ts:321-343 | while a round runs its status is that of the latest busy or retry |
| SessionTimers.TimersMatchPhases | packages/plugin/src/state-machine.ts:488-553 | a session has a live debounce timer exactly while it waits, due when the window has passed since the idle, a live heartbeat exactly while it runs and somebody listens, and never two timers |
| SessionTimers.DueMeansPassed | packages/plugin/src/state-machine.ts:443-446 | a session's debounce timer is live and due exactly when the session waits and has been idle for the debounce time |
| SessionTimers.PutStaysConsistent | packages/plugin/src/state-machine.ts:427-553 | any change of one record and its own timers keeps the live timers exactly the handles held |
| SessionTimers.RemovedStaysConsistent | packages/plugin/src/state-machine.ts:473-486 | disposing clears exactly the session's timers and leaves the other sessions alone |
| SessionTimers.ActivatedMeans | packages/plugin/src/state-machine.ts:488-520 | on the fields: busy or retry cancels the debounce, keeps or opens the round, arms the heartbeat, and means the specified phase |
| SessionTimers.IdledMeans | packages/plugin/src/state-machine.ts:427-447 | on the fields: the first idle freezes the time and arms one timer, due the debounce time later; a repeated one changes nothing |
| SessionTimers.EndedMeans | packages/plugin/src/state-machine.ts:636-672 | on the fields: a terminal clears timers, time and pending actions and keeps the higher outcome |
| SessionMachine.SessionMachine.Hear | packages/plugin/src/state-machine.ts:325-486 | every call brings every session where its own history puts it, with exactly the callbacks that history calls for |
| SessionMachine.SessionMachine.RunCalls | packages/plugin/src/state-machine.ts:325-486 | so does any sequence of calls, each reporting of every session exactly what its history calls for |
| SessionMachine.SessionMachine.Run | packages/plugin/src/state-machine.ts:325-558 | any run of calls, firing debounces and heartbeats, with calls from inside heartbeat callbacks: every session is where its share of all that happened puts it, each callback made is the one its history calls for, a window closes exactly when the session has been idle for the debounce time, and heartbeats report running rounds with their time |
| SessionCalls.ReportsAreOfTheHistory | packages/plugin/src/state-machine.ts:325-672 | in a run of a new machine what a session reports is what the history of its signals makes it report, so the theorems about histories hold of the machine |
| SessionCalls.AccountsAddUp | packages/plugin/src/state-machine.ts:325-486 | what holds of two runs one after the other holds of the whole run |
| SessionMachine.SessionMachine.HeartbeatTick | packages/plugin/src/state-machine.ts:522-546 | a firing heartbeat reports a running round with its elapsed time; any calls at all made from inside the callback, disposal included, are accounted for, and afterwards the live timers match the sessions again |
| SessionMachine.SessionMachine.FireDebounce | packages/plugin/src/state-machine.ts:443-446 | a debounce timer that fires belongs to a session that has waited for the debounce time since its idle, and reports its frozen time |
| SessionMachine.SessionMachine.Flush | packages/plugin/src/state-machine.ts:456-465 | the flush closes every open debounce window, once each, and touches no other session |
| SessionMachine.SessionMachine.OnRetry | packages/plugin/src/state-machine.ts:340-345 | a retry keeps the round and raises its provider action unless the same one is pending |
| SessionMachine.SessionMachine.DisposeAllSessions | packages/plugin/src/state-machine.ts:467-471 | no session and no timer is left |
| BoundedQueue.OfferKeepsTheGreatest | packages/plugin/src/queue.ts:91-105 | an enqueue leaves the capacity-many greatest of the contents and the newcomer, by priority, then newer; the one dropped is outranked by all that stay |
| BoundedQueue.WhoGivesWay | packages/plugin/src/queue.ts:134-151 | the newcomer is refused exactly when a full queue holds only higher priorities; who is evicted never had a higher priority than the newcomer |
| BoundedQueue.HeldIsTop | packages/plugin/src/queue.ts:91-105 | a run of offers from empty holds the greatest of everything offered |
| BoundedQueue.TopIsUnique | packages/plugin/src/queue.ts:91-105 | and that set is unique |
| BoundedQueue.RunHoldsTheTop | packages/plugin/src/queue.ts:86-125 | the queue with its own sequence numbers, which refused offers do not use up, holds those same items |
| BoundedQueue.DrainedIsStableSort | packages/plugin/src/queue.ts:107-120 | emptying the queue yields all of it, by descending priority, first in first out within a priority |
| BoundedQueue.BoundedQueue.EvictionIndex | packages/plugin/src/queue.ts:134-151 | the scan finds the oldest entry of the lowest priority, or -1 exactly when all outrank the newcomer |
| BoundedQueue.BoundedQueue.Enqueue | packages/plugin/src/queue.ts:91-105 | enqueueing in place keeps the greatest and reports acceptance and eviction truthfully |
| BoundedQueue.BoundedQueue.Dequeue | packages/plugin/src/queue.ts:107-120 | a dequeue takes the head of the stable sort and leaves the rest of it |
| BoundedQueue.BoundedQueue.New | packages/plugin/src/queue.ts:71-80 | a capacity that is not positive is refused |
| QueuePump.EveryRunKeepsInv | packages/plugin/src/pump.ts:84-191 | in every interleaving: never two sends at once; while not stopped a nonempty queue has a loop or its settlement pending; a resolved stop means an empty queue; accepted events are handed over, evicted or queued, nothing else |
| QueuePump.EachAcceptedEventHasOneFate | packages/plugin/src/pump.ts:84-101 | each accepted event is queued, handed over or evicted, exactly once |
| QueuePump.StopLeavesNothingBehind | packages/plugin/src/pump.ts:134-158 | when stop has resolved, everything accepted was handed over or evicted and nothing is being sent |
| QueuePump.LeftAloneItDeliversEverything | packages/plugin/src/pump.ts:103-191 | without further enqueues, in whatever order the awaited steps come, the pump comes to rest in boundedly many, having handed over all that was queued in stable order, with a requested stop resolved |
| PumpPriorities.OfferIsRefusedExactly | packages/plugin/src/pump.ts:84-101 | over every run a running pump refuses an event exactly when its queue is full of events worth more: a terminal or request for action never |
| PumpPriorities.TheLeastIsEvicted | packages/plugin/src/queue.ts:42-151 | an evicted event is worth no more than anything queued or offered, and the oldest of its worth: no terminal or request for action goes while a heartbeat or resolution is queued |
| PumpPriorities.TheWorthiestGoesFirst | packages/plugin/src/queue.ts:42-120 | what is handed over is worth no less than anything queued and older than all of its worth: heartbeats after resolutions, both after terminals and requests for action |
| PumpPriorities.FirstInFirstOut | packages/plugin/src/queue.ts:107-120 | over every run events worth the same, terminals and requests for action together, are handed over in the order they were accepted |
| QueuePump.QueuePump.Offer | packages/plugin/src/pump.ts:84-101 | enqueueing in place is the enqueue step, and the answer agrees with what was accepted and evicted |
| QueuePump.QueuePump.OnLoopSettled | packages/plugin/src/pump.ts:114-126 | the settlement drives the loop again for an enqueue that missed its kick |
| QueuePump.QueuePump.RequestStop | packages/plugin/src/pump.ts:134-158 | stop refuses new work and waits for the loop, or is done |
| EventDedupe.NoDispatchWithinTheWindow | apps/gateway/src/lib/dedupe.ts:43-93 | after a success committed at t no dispatch of the pair starts before t + ttl, unless at least maxSize other pairs were committed in between |
| EventDedupe.DispatchesOfAPairNeverOverlap | apps/gateway/src/lib/dedupe.ts:54-76 | two dispatches of one pair are never under way together |
| EventDedupe.NoneStartsBesideAnother | apps/gateway/src/lib/dedupe.ts:54-58 | a call while a dispatch of the pair is under way starts none |
| DedupeAnswers.AnsweredAtOnceOnlyInTheWindow | apps/gateway/src/lib/dedupe.ts:43-52 | over every run a call is answered at once only if a success of its pair was committed less than ttl ago |
| DedupeAnswers.AnsweredAtOnceInTheWindow | apps/gateway/src/lib/dedupe.ts:43-101 | and it is, if fewer than maxSize other pairs were committed since |
| DedupeAnswers.OutsideTheWindowADispatchStarts | apps/gateway/src/lib/dedupe.ts:43-66 | when no dispatch of the pair is under way and every commit of it is at least ttl old, the call starts one and owns it |
| DedupeAnswers.OutsideTheWindowACallWaits | apps/gateway/src/lib/dedupe.ts:54-58 | when one is under way and no commit is in force the call waits for it |
| DedupeAnswers.InFlightMeansUnderWay | apps/gateway/src/lib/dedupe.ts:54-76 | a pair is in flight exactly while some caller's own dispatch of it has not been put away |
| DedupeAnswers.OwnerPutsItsDispatchAway | apps/gateway/src/lib/dedupe.ts:59-76 | after the await the pair is free again; a success is committed at that instant, a failure is not |
| EventDedupe.OneFateForAll | apps/gateway/src/lib/dedupe.ts:54-76 | owner and waiters of a dispatch all fail or none does, only one is told it dispatched, and a failure commits nothing |
| EventDedupe.CommittedComplete | apps/gateway/src/lib/dedupe.ts:78-101 | a commit forgets only expired pairs and pairs that maxSize newer ones crowd out |
| EventDedupe.CommittedFollows | apps/gateway/src/lib/dedupe.ts:78-101 | entries stay within maxSize, in the order of their last commits and with the expiry those gave them |
| EventDedupe.KeysAreDistinct | apps/gateway/src/lib/dedupe.ts:48-48 | as long as user ids hold no blank, different pairs have different keys |
| EventDedupe.EventDedupe.DispatchOnce | apps/gateway/src/lib/dedupe.ts:43-66 | a call answers at once for a live pair, waits for a dispatch under way, or owns a new one |
| EventDedupe.EventDedupe.OnResumed | apps/gateway/src/lib/dedupe.ts:67-76 | after the await the owner commits or frees the key, and each caller is told its fate |
| EventDedupe.EventDedupe.EvictExpired | apps/gateway/src/lib/dedupe.ts:95-101 | the deleting loop leaves exactly the unexpired entries, in order |
| RateLimiter.FewerThanTwiceTheLimit | apps/gateway/src/modules/events/events.routes.ts:45-68 | any stretch of one window's length lets through at most twice the limit less one |
| RateLimiter.TwiceTheLimitLessOneIsLetThrough | apps/gateway/src/modules/events/events.routes.ts:45-68 | for every limit and window that bound is attained, by calls around the beginning of a window |
| RateLimiter.OneWindowKeepsTheLimit | apps/gateway/src/modules/events/events.routes.ts:45-68 | a stretch lets through no more than the limit as long as no further window opens in it |
| RateLimiter.RetryAfterIsEnough | apps/gateway/src/modules/events/events.routes.ts:61-66 | waiting the seconds told finds a new window if the key was not used meanwhile; a second less does not |
| RateLimiter.VerifiedKeyRateLimiter.Consume | apps/gateway/src/modules/events/events.routes.ts:54-67 | a call is counted in its key's current or new window and touches no other key |
| RefreshTokens.ExchangedAtMostOnce | apps/gateway/src/modules/auth/auth.repository.ts:326-361 | over every interleaving a token is exchanged at most once |
| RefreshTokens.OneUnrotatedTokenPerFamily | apps/gateway/src/modules/auth/auth.repository.ts:285-361 | every family always has exactly one unrotated token |
| RefreshTokens.RevocationIsPermanent | apps/gateway/src/modules/auth/auth.repository.ts:241-373 | a revoked family stays revoked, with the date of its first revocation |
| RefreshTokens.ReuseEndsTheFamily | apps/gateway/src/modules/auth/auth.service.ts:307-332 | if a token reaches rotation a second time, no refresh of its family that starts later succeeds |
| RefreshTokens.RevocationStopsLaterRefreshes | apps/gateway/src/modules/auth/auth.service.ts:307-345 | nor does one that starts after a logout or reset revoked the family |
| RefreshAnswers.ResetEndsEverySession | apps/gateway/src/modules/auth/auth.repository.ts:241-283 | over every run a reset with a usable code revokes every family of the user and none of others, sets the password and uses up that code only |
| RefreshAnswers.UselessCodeChangesNothing | apps/gateway/src/modules/auth/auth.repository.ts:247-264 | a reset with a foreign, used, expired or unknown code changes nothing |
| RefreshAnswers.CodeWorksOnce | apps/gateway/src/modules/auth/auth.repository.ts:247-264 | once a reset has used a code nobody can use it again |
| RefreshAnswers.CodeIsGoodForAnHour | apps/gateway/src/modules/auth/auth.repository.ts:229-239 | a code serves its user, and only that user, for less than an hour after it was issued |
| RefreshAnswers.ResetStopsLaterRefreshes | apps/gateway/src/modules/auth/auth.service.ts:307-332 | after a reset no refresh of the user's sessions until then that starts later is exchanged |
| RefreshAnswers.UndisturbedRefreshSucceedsExactly | apps/gateway/src/modules/auth/auth.service.ts:307-332 | an uninterrupted refresh is exchanged exactly when its token is known, unexpired and unrotated and its family stands |
| RefreshAnswers.RefreshIsRefusedExactly | apps/gateway/src/modules/auth/auth.service.ts:307-314 | unknown and expired tokens are refused as invalid, unexpired ones of a revoked family as reused, and no others at once |
| RefreshAnswers.ReuseRevokesItsSession | apps/gateway/src/modules/auth/auth.repository.ts:332-352 | a token that reaches rotation a second time revokes its family and no other, and is refused as reused |
| RefreshAnswers.ExchangeContinuesTheSession | apps/gateway/src/modules/auth/auth.repository.ts:332-360 | an exchange gives the family one new unrotated token, good for thirty days |
| RefreshAnswers.LoginOpensASession | apps/gateway/src/modules/auth/auth.repository.ts:285-303 | a login gives the user a new standing family with one token, good for thirty days |
| RefreshAnswers.LogoutEndsItsSession | apps/gateway/src/modules/auth/auth.service.ts:339-345 | a logout revokes the family of its token and changes nothing else |
| RefreshAnswers.LogoutsKnowTheirFamily | apps/gateway/src/modules/auth/auth.service.ts:339-345 | and that family is the one of the token it was called with |
| RefreshAnswers.LogoutWaitsExactly | apps/gateway/src/modules/auth/auth.service.ts:339-343 | it gets that far exactly for a known token of a standing family |
| RefreshTokens.LogoutMayBeOvertaken | apps/gateway/src/modules/auth/auth.repository.ts:326-361 | an interleaving in which a refresh succeeds in a family already revoked |
| RefreshTokens.RotationSucceedsExactly | apps/gateway/src/modules/auth/auth.repository.ts:332-360 | a refresh let through succeeds exactly when its token is still unrotated, whatever became of the family |
| RefreshTokens.OneExchangeAfterRevocationAtMost | apps/gateway/src/modules/auth/auth.repository.ts:326-373 | a family revoked is good for one more exchange at most |
| RefreshTokens.RotationStaysChained | apps/gateway/src/modules/auth/auth.repository.ts:332-360 | of two tokens of a family the earlier was rotated before the later was issued |
| RefreshTokens.AuthRepository.Rotate | apps/gateway/src/modules/auth/auth.repository.ts:326-361 | the compare-and-set rotates and appends, or revokes the family |
| RefreshTokens.AuthRepository.ConsumeResetToken | apps/gateway/src/modules/auth/auth.repository.ts:241-283 | a live code is consumed once, replaces the password and revokes all the user's families, or nothing happens |
| RefreshTokens.AuthRepository.RevokeFamiliesOf | apps/gateway/src/modules/auth/auth.repository.ts:270-280 | exactly the user's standing families are revoked |
| RefreshTokens.AuthRepository.CreateSession | apps/gateway/src/modules/auth/auth.repository.ts:285-303 | a family comes with its first token |
| RefreshTokens.AuthService.BeginRefresh | apps/gateway/src/modules/auth/auth.service.ts:307-314 | unknown and expired tokens are invalid, tokens of a revoked family reused |
| RefreshTokens.AuthService.EndRefresh | apps/gateway/src/modules/auth/auth.service.ts:315-332 | the second half of a refresh, on the record the first half found |
| RefreshTokens.AuthService.BeginLogout | apps/gateway/src/modules/auth/auth.service.ts:339-343 | unknown tokens and revoked families resolve silently |
| PushCompaction.BuildPushContent | apps/gateway/src/modules/fcm/payload.ts:234-254 | the loop returns the first pass of the halving schedule that fits the budget, and null exactly when the all-ones compaction does not fit; it terminates by the sum of the caps |
| PushCompaction.MessageNeverGrows | apps/gateway/src/modules/fcm/payload.ts:62-124 | no pass makes the message larger than an earlier one |
| PushCompaction.SomePassFitsExactly | apps/gateway/src/modules/fcm/payload.ts:234-254 | some pass fits exactly when the all-ones compaction does |
| PushCompaction.BodyIsUncompactedBodyCut | apps/gateway/src/modules/fcm/payload.ts:160-218 | for an action_required event the body after compaction is the uncompacted body cut to the body cap |
| PushCompaction.BodyOnEveryPass | apps/gateway/src/modules/fcm/payload.ts:47-47 | and halving keeps the caps such that this holds on every pass |
| PushText.TitleTellsWhatHappened | apps/gateway/src/modules/fcm/payload.ts:142-160 | a title ends with a label exactly when the event is of the type, outcome or kind that the label announces |
| PushText.TitleNamesWhereItHappened | apps/gateway/src/modules/fcm/payload.ts:125-193 | a title carries machine, directory and session title, each by its stand-in where there is none |
| PushText.TerminalBodiesTellApart | apps/gateway/src/modules/fcm/payload.ts:194-203 | two terminals have the same body exactly when duration and summary are the same, a missing summary told from any other |
| PushText.BodyCarriesItsTexts | apps/gateway/src/modules/fcm/payload.ts:160-218 | the body of a request for action carries the first three questions and all captions offered with them, the permission and its summary, the provider's message |
| PushText.FurtherQuestionsAreCounted | apps/gateway/src/modules/fcm/payload.ts:160-176 | beyond three questions it ends with the number of those not shown |
| Prelude.TruncationIsTheLongestPrefix | apps/gateway/src/modules/fcm/payload.ts:54-60 | truncating keeps the longest beginning that fits |
| PushCompaction.IdentityIsUntouched | apps/gateway/src/modules/fcm/payload.ts:73-124 | compaction changes no identity field, only shortens or drops display text, and leaves no asked text empty that was not |
| PushCompaction.CapsSchedule | apps/gateway/src/modules/fcm/payload.ts:246-251 | the caps reach one at the eighth halving and not before |
| PushCompaction.EventJsonCheaper | apps/gateway/src/modules/fcm/payload.ts:73-124 | an event with shorter or fewer display texts serializes to no more bytes inside the message |
| PushCompaction.CompactIsMonotone | apps/gateway/src/modules/fcm/payload.ts:73-124 | smaller caps compact further |
| MessageCache.SummaryIsAssistantText | packages/plugin/src/message-cache.ts:88-133 | in every run a summary is the truncation of the latest text of a message whose latest role is assistant, delivered since it was last said to be the user's |
| MessageCache.RetainsTheMostRecentlyActive | packages/plugin/src/message-cache.ts:145-178 | a session's records are exactly its most recently active messages since its map was made, up to the cap, in order of last activity |
| MessageCache.PresentSinceBorn | packages/plugin/src/message-cache.ts:146-157 | since its map was made the session has been present after every event |
| MessageCache.BornFromNothing | packages/plugin/src/message-cache.ts:146-157 | and was absent before it |
| MessageCache.SummaryIsLatestEligible | packages/plugin/src/message-cache.ts:115-133 | the summary is of the most recently active eligible record, and missing exactly when none is eligible |
| MessageAnswers.SummaryIsTheLatestTold | packages/plugin/src/message-cache.ts:88-133 | in every run the summary is that of the most recently active retained message which, by the events since its record was made, is the assistant's and has a text that is not blank; it is missing exactly when no retained message has one |
| MessageAnswers.RecordSaysWhatWasHeard | packages/plugin/src/message-cache.ts:88-108 | a retained record holds exactly the latest role heard since it was made and the latest text that arrived while the message was not known as the user's, if it was not said to be the user's since |
| MessageAnswers.SessionGoesExactly | packages/plugin/src/message-cache.ts:135-157 | a session goes exactly when it is cleared, all are, or it is first in a full cache that hears of a new session |
| MessageAnswers.OldestSessionFirst | packages/plugin/src/message-cache.ts:145-157 | over every run the first session is the one whose map was made longest ago |
| MessageCache.ByActivityMeans | packages/plugin/src/message-cache.ts:164-178 | moving to the tail orders each message once, by last activity |
| MessageCache.CutAndTouch | packages/plugin/src/message-cache.ts:164-178 | evicting as it goes keeps what evicting at the end would keep |
| MessageCache.MessageCache.OnRole | packages/plugin/src/message-cache.ts:88-94 | a role event in place is a step of the history |
| MessageCache.MessageCache.OnText | packages/plugin/src/message-cache.ts:102-108 | a text event in place is a step of the history |
| MessageCache.MessageCache.Touch | packages/plugin/src/message-cache.ts:164-178 | the record is at the tail and the least recently active are gone beyond the cap |
| MessageCache.MessageCache.RecordsFor | packages/plugin/src/message-cache.ts:146-157 | the session's map is there, and the oldest maps are gone beyond the cap |
| MessageCache.MessageCache.Summary | packages/plugin/src/message-cache.ts:115-133 | the backward scan finds that summary |
| ControlChannel.OneRouteWhileRunning | packages/plugin/src/control-channel.ts:190-310 | in every run: while running exactly one of a probing connect, a current socket and an armed reconnect, while stopped none; armed delays in range |
| ControlChannel.NoSocketFromBeforeAStop | packages/plugin/src/control-channel.ts:198-255 | a socket opened after a stop was opened by a connect begun after it |
| ControlChannel.RepliesStayOnTheirSocket | packages/plugin/src/control-channel.ts:402-420 | every reply goes out on the socket its request came from, still current and registered |
| ControlChannel.DelayBounds | packages/plugin/src/control-channel.ts:737-747 | every reconnect delay lies between 375 and 37500 ms |
| ChannelEndings.RefusalEndsTheChannel | packages/plugin/src/control-channel.ts:289-295 | in every run, after the current socket is closed with code 4403 nothing is opened, sent or scheduled until the next start, whatever happens |
| ChannelEndings.StopEndsTheChannel | packages/plugin/src/control-channel.ts:198-216 | the same goes for a stop |
| ChannelEndings.LostSocketIsFollowedByAReconnect | packages/plugin/src/control-channel.ts:289-310 | any other loss of the current socket leaves the channel running with a reconnect armed |
| ChannelEndings.OldSocketsDoNotMatter | packages/plugin/src/control-channel.ts:289-310 | closes, refusals and errors of any other socket have no effect |
| ChannelEndings.ReconnectDialsAgain | packages/plugin/src/control-channel.ts:218-255 | when the reconnect is due a known version opens a socket at once, an unknown one starts a probe |
| ChannelEndings.BackoffDoubles | packages/plugin/src/control-channel.ts:737-747 | the delay before jitter doubles from 500 to 30000 ms |
| ChannelService.StartGoesOutAtOnce | packages/plugin/src/control-channel.ts:190-196 | so does starting a stopped channel; starting a running one does nothing |
| ChannelService.ProbeEndsInASocket | packages/plugin/src/control-channel.ts:232-255 | in every run a usable answer to the current probe opens a socket, so does the passing of the deadline, and nothing is opened before |
| ChannelService.WaitingConnectProbesAgain | packages/plugin/src/control-channel.ts:232-252 | after its wait the current connect probes again, the next wait twice as long up to five seconds |
| ChannelService.OpenedSocketResetsTheBackoff | packages/plugin/src/control-channel.ts:268-287 | a socket lost right after it was open is dialled again within 625 ms |
| ChannelService.RegisteredExactlyWhenConfirmed | packages/plugin/src/control-channel.ts:312-340 | in every run the channel is registered exactly when a confirmation has arrived on the socket it has now |
| ChannelService.RequestIsTakenExactly | packages/plugin/src/control-channel.ts:336-345 | a request is taken up exactly when it comes on the current socket and the registration was confirmed there |
| ChannelService.ReplyIsSentExactly | packages/plugin/src/control-channel.ts:402-420 | a reply is sent exactly when the socket its request came from is still the current one, and on it |
| ControlChannel.StepKeepsInv | packages/plugin/src/control-channel.ts:190-310 | each of the twelve kinds of event keeps that |
| ControlChannel.ControlChannel.BeginConnect | packages/plugin/src/control-channel.ts:218-232 | connect up to its first await: nothing, a probe, or a socket |
| ControlChannel.ControlChannel.OnProbeAnswered | packages/plugin/src/control-channel.ts:232-255 | a stale probe ends, a usable version or an expired deadline opens, otherwise it waits |
| ControlChannel.ControlChannel.OnClose | packages/plugin/src/control-channel.ts:289-295 | code 4403 on the current socket stops the channel, any other close drops the socket |
| ControlChannel.ControlChannel.StopChannel | packages/plugin/src/control-channel.ts:198-216 | stop forgets socket and timer and overtakes every connect |

## Left out

- Record objects of the registry are values in a map: that two places may hold the same
  object is not captured. The five maps of requests in flight are one map keyed by the
  kind of request and its key.
- The clock stands still within one event of the registry; which sockets are open and
  which sends fail is one choice per event.
- No frame is processed for a connection after `disconnect` removed it; a connection
  registers once; generated request and tunnel ids are fresh; a plugin's command result is
  a terminal status. These are premises (`RegistryEvents.Enabled`).
- Liveness probes of connections: a connection may be lost at any time instead. `lastSeenAt`,
  presence publishing and the enrichment of snapshots are left out.
- WebUI traffic: only which tunnel runs over which connection is kept.
- The normalization of a directory into an ownership key: a registration carries the
  resulting path as its `path`.
- The digest of a provider action is the identity it digests; texts of questions and
  permissions are one string.
- Callbacks of the session machine other than the heartbeat's come last in their method, so
  calls made from inside them are calls made after it; within `flushPendingCompletions`
  reentrant calls are not modelled.
- SessionMachine.SessionMachine.Run: says what a heartbeat that fires reports and leads to,
  not at which instants one is due.
- Logging, including the level at which a lost event is logged, and `sender.send` calling
  back into the pump.
- The JavaScript event loop's order of microtasks: the pump's and the dedupe's awaited
  steps come in any order, which includes it.
- Refresh tokens: hashes are injective, secrets fresh, each transaction one step, and the
  check of a looked-up record is part of the lookup. Email verification is left out.
- Push messages: lone surrogates, the order of an event's JSON keys, the display of
  directories and the trimming of blanks (both parameters).
- Message cache: which texts count as blank is a parameter.
- Control channel: the bodies of replies, WebUI aborts, the clock behind the probe's
  deadline (whether it has passed is an input) and floating-point rounding of the delay.
- Delivery retries of the sender, shutdown order, the session registry, the pending adapter,
  ingest keys, devices, the admin panel and configuration.
- HTTP routes, sockets, schemas, persistence, the mobile app and the desktop clients.
