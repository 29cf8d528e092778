# Verified model of the SpareRunner controller and agent core

SpareRunner lets one controller run GitHub Actions jobs on the spare machines of its
owner. This project models the stateful core of the controller and the agent in Dafny and
proves what the two rely on across reconnects, crashes, lost replies and concurrent
requests. `dafny verify dfyconfig.toml` checks everything.

Each protocol follows one pattern. The sections of code that run under one lock are pure
functions on a value; a class with the source's fields has a method for each section,
whose new state is that function of the old one; and a machine interleaves the sections in
every possible order. A run is a sequence of states and events, and the main results hold
for every state of every run. History that the source does not keep (which events happened,
which token was created how) is either read off the run or kept in fields that the code's
decisions never read.

| module | models |
|---|---|
| Broker | session generations, snapshot captures against command dispatch, activation and disconnect projection of one node, at lock granularity |
| UpdateDelivery | the agent's outbox and its stop-and-wait delivery over sessions that are replaced at any time |
| CommandResults | the one-slot result channels of a session's commands |
| ExecutionLocks | the refcounted lock map and the accepted command's single release |
| CompletionMonitor | the Start completion monitor against Cancel and terminal acknowledgement |
| StartupRecovery | the command that decides an execution's recovery |
| JitDriver | acquire, prepare, generate, start and reconcile with a crash between any two calls |
| BrowserHandoff | the two-phase handoff ledger, its fences and clock reads, and the HTTP flows |
| DarwinPersistence | recovery locators, main locator and Keychain item under every mix of failures and power losses |
| Base64Url, JoinCodes | the join code's text form |
| Configurations | validation, the routing index and the canonical form |
| Polling | the commit-before-acknowledge poller |
| EventStream | the invalidation bus and its streams |
| Enrollment | enrollment tokens, nodes and credentials |
| EnrollmentGuards | the enrollment rate window |
| SlotLedgers | the ledger of runner slots with its shared owners |
| Order, Common | byte-string order and sorting, shared value types |

## Assumptions

- The agent's outbox is first in, first out, and the controller drops exact duplicates of
  a committed update (internal/store/agent_outbox.go, internal/app/agent_broker.go:107-121).
- The GitHub store's writes compare the expected state, change it and answer in one
  transaction, which can fail before or after it commits; beginning an attempt reports an
  unresolved one as replayed; reconciliation writes need a later controller epoch or a
  committed requeue intent; absence is committed only after the store's own confirmation
  interval (internal/store/controller_github.go).
- A failed Keychain create makes no item. A directory entry survives a power loss for
  certain only after its directory was synced, and a removed one may return until then.
- Random identifiers, nonces, certificates and their serials do not repeat. Digests and
  signatures stand for the values they protect. With a token identifier that is used again
  the same code enrolls a second node (`Enrollment.ReusedTokenEnrollsTwice`).
- Node credentials start at epoch one, as enrollment makes them; the registry by itself
  refuses to revoke a node at the last epoch (`Enrollment.LastEpochCannotBeRevoked`).
- The store behind the enrollment registry may fail before a section of an enrollment or
  after it was committed; the other sections are atomic and answer.
- The poller's handler records a message's key and its effect in one durable step.
- Clocks do not run backwards in the order their values are read, for BrowserHandoff, or in
  the order the lock is taken, for EnrollmentGuards.

## Where the code does not keep the expected promise

Each of these is a lemma with a concrete run or a family of inputs, beside the condition
under which the promise does hold.

- A command whose first update is committed can end without any result, when its caller
  withdraws it before writing it (`CommandResults.WithdrawnCommandGetsNoResult`).
- The completion monitor can publish a second terminal update after an acknowledgement
  deleted its row but reported an error (`CompletionMonitor.LostReplyLetsMonitorPublish`).
- A removal of private material that returns nil need not be durable
  (`DarwinPersistence.RetriedRemoveMayForget`).
- The poller can skip a demand that is not the durable one (`Polling.SkippedDemandCanBeStale`).
- An enrollment result pairs a credential with another one's certificate exactly when the
  node's credential was renewed before the answer (`Enrollment.AnswerPairsUnlessRenewed`);
  `Enrollment.RenewedReplayIsReachable` is such a run.
- A context handed out by Readiness is documented to end when readiness changes. It ends
  with the node's next readiness exactly when no deactivation replaced it before
  (`Broker.ReadinessWakesObserver`); `Broker.ReplacedObserverSleepsOn` is a run in which it
  never does.
- A clock value earlier than the window's start reopens the rate window, and a minute can
  then admit more than 120 requests (`EnrollmentGuards.BackwardClockExceedsBound`); handoff
  fences repeat exactly every 2^64 - 1 allocations (`BrowserHandoff.FencesRepeatAfterWrap`).

## Model

| member | source | states |
|---|---|---|
| `Broker.AuthorityAgrees` | internal/app/agent_broker.go:647-689 | In every reachable unclosed state with the lifecycle lock free, the active session is the projected one, and so is the session of a command in flight |
| `Broker.MarkOnlyRises` | internal/app/agent_broker.go:784-834 | Over any run the projected mark and the allocated generation only rise, the mark never exceeds the generation, and a closed broker stays closed |
| `Broker.SupersededSessionStaysOut` | internal/app/agent_broker.go:801-848 | After a later session was projected, an older one never commits a snapshot or readiness, becomes the session, or dispatches |
| `Broker.ProjectionFailsOnlyWhenClosed` | internal/app/agent_broker.go:1139-1184 | Between an accepted mayProject and the recording and activation under one lifecycle hold, only a closed broker can refuse |
| `Broker.InFlightIsOpenDispatch` | internal/app/agent_broker.go:903-944 | The in-flight entry names a session exactly when a dispatch of that session began and has not ended in the run so far |
| `Broker.CaptureDecidesOverlap` | internal/app/agent_broker.go:801-834 | The saved sequence number and flag accept a capture exactly when no dispatch of the node was open at any moment of the capture's interval (both directions) |
| `Broker.CommittedSnapshotSawNoDispatch` | internal/app/agent_broker.go:849-901 | A durable snapshot commit has a capture and an accepted check before it, is newer than every projected session, and saw no dispatch open from capture to commit |
| `Broker.DispatchFollowsHandshake` | internal/app/agent_broker.go:1123-1194 | A session dispatches only after its own snapshot was committed, it was activated and it was marked ready, in that order, and before it terminated |
| `Broker.ReadySessionDispatches` | internal/app/agent_broker.go:903-932 | In every run the active, ready, unterminated session of an open broker takes the node's dispatch slot and the next number if and only if no dispatch of the node is open and the numbers have not run out; nobody else ever does, and a refusal changes nothing |
| `Broker.SessionDispatchesAgain` | internal/app/agent_broker.go:903-944 | A reachable run in which a session completes its handshake, dispatches, ends the dispatch and dispatches again with the next number |
| `Broker.ClosedSinceClose` | internal/app/agent_broker.go:946-981 | The broker is closed exactly since its first Close, and from then on nothing is captured, in flight or kept for an observer |
| `Broker.AllocationAnswers` | internal/app/agent_broker.go:784-800 | In every run an allocation raises the generation exactly while the broker was never closed and the uint64 has not run out |
| `Broker.CaptureAnswers` | internal/app/agent_broker.go:849-883 | In every run a capture begins exactly while the broker is open, no disconnect is pending and the session is newer than every projected and capturing one; it remembers whether a dispatch of the node is open |
| `Broker.ProjectionAnswers` | internal/app/agent_broker.go:801-817 | In every run a projection is allowed exactly to the session of the registered capture, newer than every projected one, with no dispatch open since its capture began |
| `Broker.ReadyAnswers` | internal/app/agent_broker.go:667-690 | In every run a session becomes ready exactly while it is active and was not terminated |
| `Broker.DeactivationAnswers` | internal/app/agent_broker.go:701-723 | In every run the end of a session removes exactly that session and leads to its disconnect if disconnects are tracked |
| `Broker.DisconnectAnswers` | internal/app/agent_broker.go:724-776 | In every run a queued disconnect is pending until its own commit returns; one queued meanwhile only records a failure |
| `Broker.CaptureEndsWithItsHold` | internal/app/agent_broker.go:885-901 | In every run a capture is ended by its own actor or a close, and by nothing else |
| `Broker.CloseAnswers` | internal/app/agent_broker.go:946-981 | Closing drops what is under way and keeps everything else; a second close does nothing |
| `Broker.RefusalsNameTheirReason` | internal/app/agent_broker.go:784-883 | For any state of a node, allocation, capture, projection and activation succeed exactly when nothing speaks against them, tell the reason otherwise and then change nothing |
| `Broker.SessionRefusalsNameTheirReason` | internal/app/agent_broker.go:667-932 | The same for readiness and dispatch of the projected session |
| `Broker.PendingDisconnectRefusesCaptures` | internal/app/agent_broker.go:849-883 | From queueing a disconnect until its own commit returns it stays pending and no capture of the node begins |
| `Broker.OpenCaptureIgnoresPendingDisconnect` | internal/app/agent_broker.go:849-883 | A reachable run in which a capture begun before the disconnect still projects: the pending disconnect stops new captures only |
| `Broker.ReadinessWakesObserver` | internal/app/agent_broker.go:381-420 | When a node becomes ready or the broker closes, a context handed to an observer of its absence is cancelled if and only if no session's deactivation has replaced it since |
| `Broker.ContextFate` | internal/app/agent_broker.go:701-716 | In every reachable state a context made for an observer is kept, was cancelled or was replaced, and a replaced one is never kept or cancelled again |
| `Broker.ReplacedObserverSleepsOn` | internal/app/agent_broker.go:701-716 | A reachable run in which the node is ready and the context given to its first observer was never cancelled |
| `Broker.AgentBroker.AllocateSessionGeneration` | internal/app/agent_broker.go:784-800 | The node's generation rises by one and is returned, unless the broker is closed or the uint64 is exhausted; other nodes unchanged |
| `Broker.AgentBroker.BeginSnapshotCapture` | internal/app/agent_broker.go:849-883 | The new capture remembers actor, sequence number and in-flight flag and terminates a superseded capture's actor, or is refused for the exact reason; other nodes unchanged |
| `Broker.AgentBroker.EndSnapshotCapture` | internal/app/agent_broker.go:885-901 | Only the capture of this very actor is removed; other nodes unchanged |
| `Broker.AgentBroker.CheckProjection` | internal/app/agent_broker.go:801-817 | Accepts exactly an undisturbed capture of this actor newer than the mark |
| `Broker.AgentBroker.CommitProjection` | internal/app/agent_broker.go:818-834 | Raises the mark to the session exactly when the check still accepts it |
| `Broker.AgentBroker.ActivateSession` | internal/app/agent_broker.go:647-666 | Installs the session whose mark was recorded and terminates the one it replaces |
| `Broker.AgentBroker.MarkActorReady` | internal/app/agent_broker.go:667-690 | Marks readiness, and cancels the node's kept observer context, only for the session that is active and projected and not terminated |
| `Broker.AgentBroker.BeginCommandDispatch` | internal/app/agent_broker.go:903-932 | Takes the node's one dispatch slot and raises the sequence number, only for the ready projected session |
| `Broker.AgentBroker.EndCommandDispatch` | internal/app/agent_broker.go:934-944 | Frees the dispatch slot only when it is held by this session |
| `Broker.AgentBroker.DeactivateUnderLifecycle` | internal/app/agent_broker.go:701-723 | Removes exactly this session, replaces the node's observer context unless the broker is closed, and tells whether the disconnect must be committed |
| `Broker.AgentBroker.Readiness` | internal/app/agent_broker.go:385-420 | Tells a ready session from its absence, and for an absence hands out the node's kept context, made when there is none |
| `Broker.AgentBroker.BeginDisconnectProjection` | internal/app/agent_broker.go:724-739 | Registers the pending disconnect, or records the failure of a second one |
| `Broker.AgentBroker.FinishDisconnectProjection` | internal/app/agent_broker.go:740-776 | Clears exactly its own pending disconnect and records whether it was committed |
| `Broker.AgentBroker.CloseBroker` | internal/app/agent_broker.go:946-981 | Closes every node at once, drops captures and dispatches, cancels every kept observer context and terminates every active session |
| `UpdateDelivery.CommittedIsPublicationPrefix` | internal/app/agent_broker.go:1494-1561 | Over any reconnects, lost acknowledgements and late deliveries, the committed updates are a prefix of the publication order with exact duplicates dropped |
| `UpdateDelivery.RemovedOnlyAfterCommit` | internal/app/agent.go:596-647 | The outbox holds exactly the publications not yet removed, in order, and each removed one was committed |
| `UpdateDelivery.DistinctPublicationsCommittedInOrder` | internal/app/agent.go:483-509 | With no repeated message ID, the commits are the removed publications and at most the outbox head |
| `UpdateDelivery.TakeAckKeepsInv` | internal/app/agent.go:596-647 | An acknowledgement removes only the row at the head, and only after that row was committed |
| `UpdateDelivery.CommitExtendsPrefix` | internal/app/agent_broker.go:107-121 | Any delivery, late or repeated, is of a committed update or of the outbox head, so a commit keeps the prefix |
| `UpdateDelivery.SendKeepsStopAndWait` | internal/app/agent.go:483-509 | Sending leaves at most one message of each kind under way, and it is the awaited one |
| `UpdateDelivery.SessionSendsOldestRow` | internal/app/agent.go:483-509 | In every run an idle session with rows left sends the oldest one and waits for it, and any other sends nothing |
| `UpdateDelivery.AcknowledgementMovesOn` | internal/app/agent.go:596-647 | In every run an acknowledgement is of the awaited message of its kind; one of an update removes the oldest row and frees the session exactly when the outbox confirms it |
| `UpdateDelivery.OnlyItsRowGoes` | internal/app/agent.go:596-647 | Deleting a row removes exactly that one and keeps the order of the others |
| `UpdateDelivery.OutboxDrains` | internal/app/agent.go:483-647 | From every state the invariant allows, working sessions empty the outbox, and then everything published is committed |
| `UpdateDelivery.AgentSession.SendPendingHead` | internal/app/agent.go:483-509 | With nothing awaited the oldest pending row is sent and awaited; otherwise nothing changes |
| `UpdateDelivery.AgentSession.Acknowledgement` | internal/app/agent.go:596-647 | An acknowledgement matches exactly one of the two awaited messages, or ends the session; a matched update is removed |
| `CommandResults.AtMostOneResult` | internal/app/agent_broker.go:1494-1561 | Under every interleaving of terminate, update handling and cancellation, no result channel gets a second result |
| `CommandResults.SendNeverBlocks` | internal/app/agent_broker.go:1785-1812 | Every send finds its one-slot channel unused, so no sender blocks |
| `CommandResults.GateLeavesSlotFree` | internal/app/agent_broker.go:1617-1735 | The holder of the command gate never finds the pending slot occupied |
| `CommandResults.EndedSessionAnswersAll` | internal/app/agent_broker.go:1785-1812 | Once the session ended, each installed command has exactly one result, except one withdrawn before it was written, which has none |
| `CommandResults.CommittedUpdateAnswers` | internal/app/agent_broker.go:1494-1561 | A command whose first update was committed has exactly one result once the session settles, if and only if it was not withdrawn |
| `CommandResults.WithdrawnCommandGetsNoResult` | internal/app/agent_broker.go:1737-1743 | A reachable run in which a command's first update is committed and its channel stays empty: acknowledged early, then withdrawn unwritten |
| `CommandResults.StepMovesOneCopy` | internal/app/agent_broker.go:1617-1743 | Each step moves a command's one answer between pending slot, handler, terminator and channel; only installing makes one |
| `CommandResults.UpdateFailsUnlessItBelongs` | internal/app/agent_broker.go:1494-1525 | In every run an update ends the session exactly when it is neither of the pending command, acknowledged before and of the same execution, nor of a command that belongs to the execution by the snapshot or an update finished before and not taken back since |
| `CommandResults.KnownIsHistory` | internal/app/agent_broker.go:1536-1552 | The session's table of commands holds exactly what the snapshot and the finished updates say, minus every execution released or failed since |
| `CommandResults.AckFailsUnlessExpected` | internal/app/agent_broker.go:1478-1492 | In every run an acknowledgement ends the session exactly when it does not name the pending command or repeats an earlier one |
| `CommandResults.InstallsUntilTheEnd` | internal/app/agent_broker.go:1655-1675 | The holder of the command gate installs its command exactly until the session is terminated |
| `CommandResults.OrdinaryCommandIsAnswered` | internal/app/agent_broker.go:1617-1735 | In any session with no command under way, a command written, acknowledged and answered brings one result and leaves the session free |
| `CommandResults.SlotBelongsToItsCommand` | internal/app/agent_broker.go:1737-1743 | Nobody but its own command clears or finishes over an occupied slot, and a cleared slot takes the next command |
| `CommandResults.SessionActor.InstallPending` | internal/app/agent_broker.go:1617-1735 | Installs the pending command unless the session ended, the slot is taken or the ID was used with other content |
| `CommandResults.SessionActor.ClassifyUpdate` | internal/app/agent_broker.go:1494-1561 | Decides whether an update answers the pending command, belongs to a known one, or is a protocol error |
| `CommandResults.SessionActor.FinishUpdate` | internal/app/agent_broker.go:1494-1561 | Forgets exactly the commands of an execution that finished and frees the answered slot |
| `CommandResults.SessionActor.TakePending` | internal/app/agent_broker.go:1785-1812 | Takes the pending command away once, for terminate to answer it |
| `ExecutionLocks.MutualExclusion` | internal/app/agent_runner.go:766-789 | At most one call holds the lock of an execution, whichever lock objects came and went |
| `ExecutionLocks.WaitersShareTheMapEntry` | internal/app/agent_runner.go:766-789 | Every call that waits or holds refers to the object stored in the map under its execution |
| `ExecutionLocks.EntryExactlyWhileUsed` | internal/app/agent_runner.go:766-789 | An entry exists exactly while a call holds, waits or has yet to count itself out, and its count is their number |
| `ExecutionLocks.WaiterWaitsForHolder` | internal/app/agent_runner.go:766-789 | A waiter's mutex is free or held by another call on the same execution |
| `ExecutionLocks.UnlockingWakesWaiter` | internal/app/agent_runner.go:766-789 | When the holder unlocks, any call that waits for the same execution can take the lock at once |
| `ExecutionLocks.ReleasedExactlyOnce` | internal/app/agent_runner.go:722-764 | Under any order of Execute and Discard a closed command was released once or is about to be by exactly one caller |
| `ExecutionLocks.FirstCallDecides` | internal/app/agent_runner.go:722-764 | The first Execute or Discard decides for good whether the command is executed |
| `ExecutionLocks.LockTable.EnterLock` | internal/app/agent_runner.go:766-775 | Finds or makes the entry and counts the caller in |
| `ExecutionLocks.LockTable.LeaveLock` | internal/app/agent_runner.go:777-788 | Counts the caller out and drops the entry with the last one |
| `CompletionMonitor.MonitorPublishesAlone` | internal/app/agent_runner.go:906-1013 | Unless degraded, the monitor publishes only with no terminal update pending; none was acknowledged since registration exactly when no acknowledgement lost its reply |
| `CompletionMonitor.MarkedOnlyWhileMonitored` | internal/app/agent_runner.go:337-371 | An execution is marked acknowledged only while its monitor is registered |
| `CompletionMonitor.LostReplyLetsMonitorPublish` | internal/app/agent_runner.go:337-371 | A reachable run in which an acknowledgement deletes its row but reports an error, and the next step publishes a second terminal update with the lost reply on record |
| `CompletionMonitor.MonitorStandsDown` | internal/app/agent_runner.go:937-972 | In every run a monitor stands down exactly when an acknowledgement was marked since its registration or a terminal update is pending, and publishes otherwise, even with an unreadable outbox |
| `CompletionMonitor.OnlyConfirmedAcknowledgementsMark` | internal/app/agent_runner.go:337-371 | An acknowledgement comes to mark the monitor exactly when it deleted its row and was told so |
| `CompletionMonitor.MonitorTable.Unregister` | internal/app/agent_runner.go:906-912 | Removes the registration and the mark of exactly this execution, keeping every mark registered |
| `JitDriver.EffectsAreSentOnce` | internal/app/controller_runner.go:1733-1867 | In every run, with failures and crashes anywhere, an attempt sees at most one JIT generation and one start, and an acquire intent one call |
| `JitDriver.IntentIsDurableFirst` | internal/app/controller_runner.go:1576-1867 | Every acquire, generate, start and removal finds its own durable intent recorded before it |
| `JitDriver.AttemptsFollowAbsence` | internal/app/controller_runner.go:1930-2297 | A later attempt begins only after every earlier one was recorded as absent, and nothing happens to the earlier ones afterwards |
| `JitDriver.EffectsHappenOnce` | internal/app/controller_runner.go:1733-1867 | In a safe journal only removals and intermediate records recur |
| `JitDriver.RemovalNeedsEvidence` | internal/app/controller_runner.go:1930-2297 | The provider's runner is removed only when exactly it is listed and no accepted start is proven, or the start is known to have led nowhere |
| `JitDriver.AbsenceNeedsMissingRunner` | internal/app/controller_runner.go:2194-2243 | An attempt is declared absent only while its runner is not listed, and one with an identity only on a pass that found removal pending |
| `JitDriver.OwnerIsNotReconciled` | internal/app/controller_runner.go:1954-1964 | A fenced attempt of the same epoch without a requeue intent is left exactly as it is |
| `JitDriver.StraightRun` | internal/app/controller_runner.go:1506-1574 | Without failures a new claim goes through acquire, intent, generation, dispatch and start in that order and ends running |
| `JitDriver.CrashedGenerationIsRetried` | internal/app/controller_runner.go:1733-1800 | A crash right after the generate call is reconciled as absent by a later process, and the claim gets a second attempt |
| `JitDriver.OutcomesFollowReplies` | internal/app/controller_runner.go:1760-1867 | In every run the outcome recorded of a generation and of a start is that of the reply to this very call: generated or started exactly for a confirming reply, ambiguous exactly for any other, and without a record the claim stays fenced at the durable intent |
| `JitDriver.DriveTable` | internal/app/controller_runner.go:1506-1867 | Reply by reply, how far a drive of an unfenced claim comes: the exact journal, attempt and claim it leaves |
| `JitDriver.ReconciliationRecordsFindings` | internal/app/controller_runner.go:1930-2297 | In every run a reconciliation records exactly what the evidence proves about the attempt, cut short only by failing calls |
| `JitDriver.ReconciliationTable` | internal/app/controller_runner.go:1930-2297 | Without failures: started, accepted, removal of the listed runner, or absence with its effect on the claim, as the state of the attempt and the evidence decide |
| `JitDriver.RunKeepsAgreement` | internal/app/controller_runner.go:1930-2297 | In every run the claim's state is one of those of its current attempt, and a requeue intent is for a started runner or its removal |
| `JitDriver.RunKeepsInv` | internal/app/controller_runner.go:1506-1574 | Every run of drives, restarts and re-arming messages keeps the journal safe and the claim consistent with its attempt |
| `JitDriver.Coordinator.AcquireClaim` | internal/app/controller_runner.go:1576-1628 | Records the acquire intent, calls the provider once, and reports success only after the acquired state is durable |
| `JitDriver.Coordinator.PrepareClaim` | internal/app/controller_runner.go:1695-1731 | Sends the idempotent Prepare and records preparing or failed; a failed send leaves the claim as it was |
| `JitDriver.Coordinator.GenerateAndStartClaim` | internal/app/controller_runner.go:1733-1760 | Begins an attempt only where none is unresolved and continues with generation only after its fence |
| `JitDriver.Coordinator.GenerateClaim` | internal/app/controller_runner.go:1760-1821 | Calls the provider once and records generated or ambiguous |
| `JitDriver.Coordinator.DispatchStart` | internal/app/controller_runner.go:1822-1867 | Records the dispatch before sending Start once, then started for a confirming reply and ambiguous for any other |
| `JitDriver.Coordinator.ReconcileAttempt` | internal/app/controller_runner.go:1930-2118 | Decides between leaving alone, confirming a start, and asking the provider, in the source's order |
| `JitDriver.Coordinator.ReconcileWithProvider` | internal/app/controller_runner.go:2119-2297 | Acts on the provider's answer: absence, removal of the exact runner, or nothing |
| `JitDriver.Coordinator.RemoveProviderRunner` | internal/app/controller_runner.go:2244-2297 | Records the removal before the provider is asked to remove |
| `JitDriver.Coordinator.Drive` | internal/app/controller_runner.go:1506-1574 | One pass either reconciles the fenced claim or carries an unfenced one forward |
| `BrowserHandoff.ClaimedAtMostOnce` | internal/auth/manager.go:702-768 | Each code has at most one successful claim ever, with clock reads before the lock and entries expiring, and only after its approval was audited |
| `BrowserHandoff.EndedFencesNeverMatch` | internal/auth/manager.go:1083-1091 | The fence of an approval or claim that was committed or rolled back matches no later entry, so every late use is refused |
| `BrowserHandoff.FencesRepeatAfterWrap` | internal/auth/manager.go:1083-1091 | Two allocations give equal fences exactly when they are a multiple of 2^64-1 apart |
| `BrowserHandoff.SessionLiveIffCommitted` | internal/api/server.go:519-601 | A finished claim request leaves its session live exactly when its claim committed, unless the session ended by itself |
| `BrowserHandoff.CommittedSessionKeepsItsDeadline` | internal/auth/manager.go:381-396 | In every run the session of a committed claim, unless it ended by itself, is live until the clock value its own request read for it plus the lifetime it was issued with |
| `BrowserHandoff.ReservationHoldsUntilExpiry` | internal/auth/manager.go:649-789 | In every run, whatever other requests do, a reserved code is committed, or given back, exactly as its holder asks until it expires; a commit with a late clock value never succeeds |
| `BrowserHandoff.RequestAnswers` | internal/auth/manager.go:605-746 | The unexpired entry of the code alone decides an approval or claim, each refusal is given exactly in its case, and entries of other codes stay exactly until they expire |
| `BrowserHandoff.HandoffSucceeds` | internal/auth/manager.go:605-789 | A new code can be approved, claimed, given back, claimed again and committed, and is then refused; the first claim's fence no longer works |
| `BrowserHandoff.RunKeepsLedger` | internal/auth/manager.go:605-789 | While fewer than 2^64-1 fences were allocated, entries, tokens and settled codes stay consistent in every run |
| `BrowserHandoff.Manager.ExpireBrowserHandoffs` | internal/auth/manager.go:1075-1081 | Deletes exactly the entries whose expiry the given clock value has reached |
| `BrowserHandoff.Manager.NextBrowserHandoffFence` | internal/auth/manager.go:1083-1091 | Counts up as a uint64 and skips zero |
| `BrowserHandoff.Manager.ApproveBrowserHandoff` | internal/auth/manager.go:605-647 | Makes a fenced pending entry for a new code, answers an approved one without audit, and refuses a pending or different one |
| `BrowserHandoff.Manager.CommitBrowserHandoffApproval` | internal/auth/manager.go:649-674 | Approves the exactly matching entry before its expiry; an expired one is deleted |
| `BrowserHandoff.Manager.RollbackBrowserHandoffApproval` | internal/auth/manager.go:676-697 | Deletes the exactly matching pending entry |
| `BrowserHandoff.Manager.ClaimBrowserHandoff` | internal/auth/manager.go:702-746 | Fences one claimer of an approved entry and tells every other state apart |
| `BrowserHandoff.Manager.CommitBrowserHandoffClaim` | internal/auth/manager.go:748-768 | Claims the exactly matching entry before its expiry; an expired one is deleted |
| `BrowserHandoff.Manager.RollbackBrowserHandoffClaim` | internal/auth/manager.go:770-789 | Returns the exactly matching entry to approved, or deletes it once expired |
| `BrowserHandoff.Manager.IssueSession` | internal/auth/manager.go:366-399 | Drops expired sessions and adds the new one with its deadline |
| `BrowserHandoff.Manager.RevokeSession` | internal/auth/manager.go:495-503 | Removes exactly this session |
| `BrowserHandoff.Server.AuthorizeBrowserHandoff` | internal/api/server.go:469-517 | Run by itself, approves exactly an authentic code that is already approved or new, audited and committed in time; a failed new approval leaves no entry, and no other entry or session is touched |
| `BrowserHandoff.Server.ClaimHandoff` | internal/api/server.go:519-601 | Run by itself, returns a session exactly for an authentic, approved, unexpired code with issue, audit, CSRF and commit in time; the session then has its full lifetime and the unexpired others are kept, and after a failure no session is added, none unexpired is lost and the code can be claimed again until it expires |
| `DarwinPersistence.ItemsStayNamed` | internal/enroll/persistence_darwin.go:159-311 | At every crash point of any sequence of persists and removes, with power losses, each Keychain item is named by a visible locator certain to survive |
| `DarwinPersistence.PersistedMaterialLoads` | internal/enroll/persistence_darwin.go:159-233 | A nil persist leaves exactly the main locator, durably, and one item; load returns its contents |
| `DarwinPersistence.PersistSucceeds` | internal/enroll/persistence_darwin.go:159-233 | Without failures a persist from nothing succeeds |
| `DarwinPersistence.OneFailureIsUndone` | internal/enroll/persistence_darwin.go:159-233 | A persist in which one call fails is undone without a trace until the main locator is published, and from then on leaves the new material durable and loadable; it fails for the reason of that call |
| `DarwinPersistence.FirstFailureIsTold` | internal/enroll/persistence_darwin.go:159-233 | A persist tells its first failure, whatever happens during its cleanup |
| `DarwinPersistence.FailedRollBackKeepsLocators` | internal/enroll/persistence_darwin.go:198-226 | A rollback that fails in turn keeps every locator while the item may still be there, and the recovery locator while the main one is |
| `DarwinPersistence.StoppedPersistLeaves` | internal/enroll/persistence_darwin.go:159-233 | Without failures a process that stops after any number of calls leaves exactly what these did |
| `DarwinPersistence.PersistRefusals` | internal/enroll/persistence_darwin.go:159-170 | A persist that may not begin tells why and touches nothing |
| `DarwinPersistence.LoadAnswers` | internal/enroll/persistence_darwin.go:235-265 | A load answers the named item's contents, that there is nothing, or that a recovery is pending, each exactly in its case |
| `DarwinPersistence.PendingRecoveryBlocksReplacement` | internal/enroll/persistence_darwin.go:235-265 | While a recovery locator is left, load reports recovery and persist refuses without changing anything |
| `DarwinPersistence.RemoveLeavesNothing` | internal/enroll/persistence_darwin.go:267-311 | A nil remove leaves no item and no visible locator; the absence is durable exactly when something was removed or nothing unsynced was left |
| `DarwinPersistence.RetriedRemoveMayForget` | internal/enroll/persistence_darwin.go:267-311 | A removal whose sync failed returns nil when retried, and its locator can come back after a power loss, naming no item |
| `DarwinPersistence.RemoveRecoversEverything` | internal/enroll/persistence_darwin.go:267-311 | One removal without failures deletes every item and locator left by any earlier failures |
| `DarwinPersistence.RemoveSucceedsIffNothingFails` | internal/enroll/persistence_darwin.go:267-311 | A removal returns nil exactly when its read, every delete, every file removal and the sync succeeded |
| `DarwinPersistence.KeptItemsKeepTheirFiles` | internal/enroll/persistence_darwin.go:267-311 | However a removal ends, an item still there keeps its contents and every file that names it |
| `DarwinPersistence.LocatorRemovalAnswers` | internal/enroll/persistence_darwin.go:328-375 | Only the exact expected locator is removed; the strict form refuses what it cannot read or what has changed, the lenient one leaves it alone |
| `DarwinPersistence.PrivateMaterial.PersistPrivateMaterial` | internal/enroll/persistence_darwin.go:159-233 | Recovery locator, item, main locator, in that order, with the source's cleanup on each failure |
| `DarwinPersistence.PrivateMaterial.LoadPrivateMaterial` | internal/enroll/persistence_darwin.go:235-265 | Contents of the named item, or the exact reason why not |
| `DarwinPersistence.PrivateMaterial.RemovePrivateMaterial` | internal/enroll/persistence_darwin.go:267-311 | Deletes each item before its locators and keeps the locators of an item it could not delete |
| `DarwinPersistence.PrivateMaterial.RemoveExpectedLocator` | internal/enroll/persistence_darwin.go:328-370 | Removes the locator only if the file holds exactly the expected account; the lenient form leaves anything else alone |
| `DarwinPersistence.PrivateMaterial.CollectReferences` | internal/enroll/persistence_darwin.go:377-433 | One reference for each account named by a visible file, with exactly its files |
| `JoinCodes.DecodeOfEncoded` | internal/enroll/join_code.go:72-155 | Decoding an encoded valid code returns that code |
| `JoinCodes.EncodeOfDecoded` | internal/enroll/join_code.go:105-155 | Re-encoding what an accepted string decodes to returns that string |
| `JoinCodes.AcceptedIsEncoded` | internal/enroll/join_code.go:105-155 | Exactly the encoder's strings are accepted, and no two codes share one |
| `JoinCodes.WireFormat` | internal/enroll/join_code.go:72-100 | An encoded code is the prefix and the base64 of magic, version, fingerprint, the number of hints high byte first, the hints, token and secret |
| `JoinCodes.HintsAreLengthPrefixed` | internal/enroll/join_code.go:72-100 | Each hint stands behind the earlier ones after its own length, high byte first |
| `JoinCodes.EncodeAnswers` | internal/enroll/join_code.go:72-100 | Encoding succeeds exactly for version one, nothing zero and canonical hints; another version is told apart |
| `JoinCodes.OtherVersionIsTold` | internal/enroll/join_code.go:105-155 | Decoding reports another version exactly for canonical base64 of a payload long enough and with the magic |
| `JoinCodes.CanonicalHintsForgetOrder` | internal/enroll/join_code.go:179-193 | Canonical hints, and whether there are any, do not depend on the order given |
| `JoinCodes.CanonicalHintsAnswer` | internal/enroll/join_code.go:158-204 | Hints have a canonical form exactly when each is plain and normalizes to a plain, short enough text that stays as it is, and these differ; the form is these texts in increasing order |
| `JoinCodes.CanonicalHintsAreFixed` | internal/enroll/join_code.go:158-193 | Hints are their own canonical form exactly when they pass the canonical check, and the form is idempotent |
| `JoinCodes.EncodeJoinCode` | internal/enroll/join_code.go:72-100 | The payload built by appending is the canonical encoding, or the exact error |
| `JoinCodes.DecodeJoinCode` | internal/enroll/join_code.go:105-155 | The decoder accepts or refuses as specified on any input and never reads outside the payload |
| `JoinCodes.ReadHints` | internal/enroll/join_code.go:126-145 | Advancing the offset reads the announced hints or stops at the first that does not fit |
| `JoinCodes.CheckCanonicalHints` | internal/enroll/join_code.go:158-177 | True exactly for valid hints in strictly increasing order |
| `Base64Url.DecodeOfEncoded` | internal/enroll/join_code.go:113-116 | RFC 4648 section 5: decoding encoded bytes returns them |
| `Base64Url.ReencodingAcceptsCanonical` | internal/enroll/join_code.go:113-116 | The re-encoding check passes exactly for letters only, a possible length and zero trailing bits (RFC 4648 sections 3.2 and 3.5) |
| `Base64Url.EncodesGroupByGroup` | internal/enroll/join_code.go:113-116 | Each group of three bytes and its four sextets are the same number, a shorter last group filled up with zeros |
| `Base64Url.LettersAreTheAlphabet` | internal/enroll/join_code.go:113-116 | The letters are table 2 of RFC 4648 |
| `Configurations.AcceptsExactlyTheAcceptable` | internal/config/config.go:153-251 | No problem is reported exactly when items are sound, identifiers and labels unique, and no two targets of one label overlap pairwise |
| `Configurations.IndexFindsClashes` | internal/config/config.go:302-341 | The three-set index answers as the pairwise test over all earlier targets |
| `Configurations.AcceptanceIgnoresOrder` | internal/config/config.go:153-251 | Acceptance is the same for every order of the three lists |
| `Configurations.CanonicalFormIsUnique` | internal/config/config.go:343-373 | For accepted configurations the canonical form is accepted, equal for all orders, and idempotent |
| `Configurations.AnySortedOrderIsCanonical` | internal/config/config.go:362-372 | For accepted configurations any sorted order of the lists is the canonical form, whatever sort is used |
| `Configurations.TargetProblemMeaning` | internal/config/config.go:207-251 | A target passes exactly when sound by itself, new, and clashing with no earlier target |
| `Configurations.OverlapIsSharedRepository` | internal/config/config.go:302-341 | Two accepted scopes overlap exactly when some repository belongs to both |
| `Configurations.RepositoryScope` | internal/config/config.go:258-300 | A repository scope is accepted exactly as a canonical owner and name around its only slash |
| `Configurations.OrganizationScope` | internal/config/config.go:258-300 | An organization scope is accepted exactly as a canonical text without a slash |
| `Configurations.FirstProblemIsFirst` | internal/config/config.go:153-256 | The problem reported is that of the first part, and in it the first item, that has one |
| `Configurations.ItemProblemsTell` | internal/config/config.go:153-256 | The problem of a node or profile names its first fault, each exactly in its case |
| `Configurations.TargetProblemTells` | internal/config/config.go:153-256 | The problem of a target is true of the target, its profile or an earlier target |
| `Configurations.TargetRoutes.Overlaps` | internal/config/config.go:310-327 | Set lookups decide whether the route overlaps any route added so far |
| `Configurations.TargetRoutes.Add` | internal/config/config.go:329-341 | The sets keep exactly the scopes and owners of the routes added |
| `Configurations.Validate` | internal/config/config.go:153-251 | Reports the first problem, and none exactly for acceptable configurations |
| `Configurations.ValidateTargets` | internal/config/config.go:207-251 | Maps and routing sets filled in one pass find the first target problem |
| `Configurations.CanonicalConfiguration` | internal/config/config.go:343-373 | Fresh sorted copies of the three lists; the argument's lists keep their contents |
| `Configurations.SortSlice` | internal/config/config.go:362-372 | In place, the slice becomes the sorted order of its old contents |
| `Polling.DeletedWasCommitted` | internal/github/adapter.go:281-323 | Every deleted message was durably committed directly before, and that directly after its session was committed as healthy |
| `Polling.CursorIsLastDeleted` | internal/github/adapter.go:200-322 | Over redeliveries, failed acknowledgements and restarts the cursor is 0 or the last message this poller deleted |
| `Polling.MessagesTakeEffectOnce` | internal/github/adapter.go:211-322 | With a handler that remembers the keys it handled in one durable step, a message has taken effect exactly once if it was committed and not at all otherwise, and each deleted one has taken effect once |
| `Polling.OneScaleSetPerPoller` | internal/github/adapter.go:326-342 | Between restarts only one scale set is ever committed for |
| `Polling.SkippedDemandIsDurable` | internal/github/adapter.go:326-342 | The demand remembered, and skipped as unchanged, is the durable one exactly when the last demand commit that took effect was also reported as done |
| `Polling.SkippedDemandCanBeStale` | internal/github/adapter.go:326-342 | A run in which a demand commit fails after taking effect and the session's return to its earlier demand is skipped, leaving the wrong one durable |
| `Polling.PollTable` | internal/github/adapter.go:211-322 | One poll, reply by reply: the exact entries it makes durable, where the cursor stands and when it succeeds |
| `Polling.PollErrors` | internal/github/adapter.go:211-322 | The error of a poll tells the first call that failed or what was found wrong, each exactly in its case |
| `Polling.ValidMessageIsTaken` | internal/github/adapter.go:211-322 | In every run a delivered, valid message that meets no failure is committed, deleted and acknowledged in this poll |
| `Polling.Poller.PollNext` | internal/github/adapter.go:211-322 | One poll makes the calls in order, stops at the first failure, and moves the cursor only after the delete succeeded |
| `Polling.Poller.CommitSessionDemand` | internal/github/adapter.go:326-342 | Binds the first scale set, refuses another, skips an unchanged snapshot, and remembers only a confirmed commit |
| `EventStream.NoInvalidationIsLost` | internal/api/server.go:1097-1153 | A waiting stream has a token queued, or its last cursor has the current generation and at least the newest announced revision |
| `EventStream.WokenStreamCatchesUp` | internal/api/server.go:1135-1153 | A woken stream that is not interrupted waits again with the present revision and generation |
| `EventStream.PublicationBetweenReadsIsQueued` | internal/api/server.go:1143-1148 | A publication between the stream's two reads leaves a token behind |
| `EventStream.TokenMeansPublication` | internal/api/server.go:144-175 | In every run a live stream has a token queued exactly when something was published since it was opened and since it last took one |
| `EventStream.GenerationCountsPublications` | internal/api/server.go:144-157 | In every run the generation is the number of publications modulo 2^64 |
| `EventStream.AnnouncedIsHighest` | internal/api/server.go:144-157 | The announced revision is the highest one published so far |
| `EventStream.OpenedStreamWaits` | internal/api/server.go:1097-1134 | A stream opened and not interrupted waits at the present revision and generation with an empty slot, and no other stream notices |
| `EventStream.EventBus.PublishInvalidation` | internal/api/server.go:144-157 | Raises the generation and leaves a token in every slot without waiting |
| `EventStream.EventBus.SubscribeStream` | internal/api/server.go:159-175 | Registers an empty slot and returns the generation of that moment |
| `Enrollment.OneNodePerCode` | internal/enroll/service.go:106-157 | With fresh token identifiers all successful enrollments of one token return one node to one public key, and only with the token's secret |
| `Enrollment.WithdrawnForGood` | internal/enroll/registry.go:147-233 | Once revoked or cancelled a node has no credential authorized, renewed, finalized or handed out again |
| `Enrollment.RevocationSucceeds` | internal/enroll/registry.go:209-223 | For nodes made by enrollment, revoking an unrevoked node always succeeds and ends every authorization |
| `Enrollment.RenewedCredentialIsDead` | internal/enroll/registry.go:191-207 | A replaced credential is never authorized again, and at most one credential of a node is at any time |
| `Enrollment.RetrySucceedsWhileOpen` | internal/enroll/registry.go:114-145 | After a consumption, whether or not its answer arrived, a retry gets that node if and only if it has the secret and the key and the node was neither finalized nor withdrawn |
| `Enrollment.AnswerPairsUnlessRenewed` | internal/enroll/service.go:139-161 | Over every run a successful enrollment pairs a credential with the certificate it was issued with if and only if no renewal of the node succeeded between the consumption of the token and the answer |
| `Enrollment.RenewedReplayIsReachable` | internal/enroll/registry.go:114-129 | A reachable run in which a replayed answer names a renewed, authorized credential beside the certificate of the first |
| `Enrollment.ConsumptionAnswers` | internal/enroll/registry.go:88-112 | In every run an attempt is answered at once exactly with an open token of this epoch, its secret and a new, complete identity; otherwise the registry stays as it was |
| `Enrollment.CancellationAnswers` | internal/enroll/registry.go:147-168 | In every run a cancelled unused token never enrolls anyone again and changes no node, a consumed one takes its node with it until that is finalized, and any other cancellation changes nothing |
| `Enrollment.FinalizationAnswers` | internal/enroll/registry.go:131-145 | In every run exactly the current credential of a node that was not withdrawn finalizes its enrollment, and only its own |
| `Enrollment.RenewalAnswers` | internal/enroll/registry.go:191-207 | A renewal succeeds exactly for the credential authorized now and a complete replacement, which is then the only one authorized for the node |
| `Enrollment.RevocationAnswers` | internal/enroll/registry.go:209-223 | A revocation ends every credential of its node and of no other |
| `Enrollment.LostAnswerIsRecovered` | internal/enroll/service.go:139-157 | In every run an exchange whose answer the store loses gives its request the result by replay; a store that fails before changes nothing, and one that fails the replay is told as an outage |
| `Enrollment.ExchangeRefusalsNameTheirReason` | internal/enroll/registry.go:78-129 | Each reason for creating, exchanging or replaying nothing is given exactly in its case, and a refused exchange changes nothing |
| `Enrollment.NodeRefusalsNameTheirReason` | internal/enroll/registry.go:131-223 | Each reason for finalizing, cancelling, renewing or revoking nothing is given exactly in its case |
| `Enrollment.FailuresTold` | internal/enroll/errors.go:50-61 | Exactly the reasons a caller can remove are told as rejections, and only when the replay gives one too |
| `Enrollment.MemoryRegistry.Consume` | internal/enroll/registry.go:88-112 | Exchanges the token for node and credential in one step, or refuses for the first reason in order |
| `Enrollment.MemoryRegistry.Replay` | internal/enroll/registry.go:114-129 | Returns the bound node to the same secret and key while it is not revoked |
| `Enrollment.MemoryRegistry.Finalize` | internal/enroll/registry.go:131-145 | Closes exactly the replay rights of the credential's node |
| `Enrollment.MemoryRegistry.Cancel` | internal/enroll/registry.go:147-168 | Drops an unused token, or revokes the node of a consumed one |
| `Enrollment.MemoryRegistry.Renew` | internal/enroll/registry.go:191-207 | Replaces the current, valid credential by one of the same epoch and another serial |
| `Enrollment.MemoryRegistry.Revoke` | internal/enroll/registry.go:209-223 | Marks the node revoked and raises its epoch |
| `Enrollment.MemoryRegistry.Enroll` | internal/enroll/service.go:139-157 | Consumes, and on any failure, also one after the commit, replays; an unavailable replay outranks the failure of the consumption |
| `EnrollmentGuards.AdmissionIsBounded` | internal/app/enrollment_guard.go:71-127 | With a clock that does not run backwards, any half-open minute admits at most 120 requests, 24 from one source and two audit markers of a kind |
| `EnrollmentGuards.SourceTableNeverFills` | internal/app/enrollment_guard.go:71-98 | Counts by source sum to the total, and the source table's limit never decides |
| `EnrollmentGuards.RequestIsAdmittedBelowLimits` | internal/app/enrollment_guard.go:71-98 | In every run a request is admitted and counted exactly while fewer than 60 were admitted in the present window and fewer than 12 from its source |
| `EnrollmentGuards.FirstMarkerIsGranted` | internal/app/enrollment_guard.go:100-116 | In every run an audit marker is granted exactly as the first of its kind in the present window |
| `EnrollmentGuards.WindowsStartAMinuteApart` | internal/app/enrollment_guard.go:118-127 | With an ordered clock a new window starts exactly with the first value at least a minute after the last start |
| `EnrollmentGuards.BackwardClockExceedsBound` | internal/app/enrollment_guard.go:118-127 | A run in which clock values reach the guard in the reverse of their order and 180 requests are admitted within one minute |
| `EnrollmentGuards.RequestGuard.AdmitRequest` | internal/app/enrollment_guard.go:71-98 | Admits and counts exactly below both limits, after rolling the window |
| `EnrollmentGuards.RequestGuard.ClaimAuditMarker` | internal/app/enrollment_guard.go:100-116 | Grants one marker of a kind in a window |
| `SlotLedgers.LedgerStaysConsistent` | internal/domain/slot_ledger.go:72-141 | Over every call sequence claims minus releases is the number of owned slots and never exceeds the fleet maximum |
| `SlotLedgers.BoundSlotIsHeld` | internal/domain/slot_ledger.go:97-141 | A bound slot refuses other claims, other executions, and a release by anyone but its exact owner |
| `SlotLedgers.ClaimAnswers` | internal/domain/slot_ledger.go:72-95 | A claim succeeds exactly with a target, a free slot and fleet capacity, and otherwise names the first that is missing and changes nothing |
| `SlotLedgers.OwnerAnswers` | internal/domain/slot_ledger.go:97-141 | A binding succeeds exactly for the owner's target without another execution, a release exactly for the same owner; each refusal names its reason and changes nothing |
| `SlotLedgers.SlotGoesRound` | internal/domain/slot_ledger.go:72-141 | A free slot is claimed, bound and released again, which leaves the ledger as it was |
| `SlotLedgers.ReturnedSlotsStay` | internal/domain/slot_ledger.go:155-173 | A value returned by Slots is unchanged by later binds and claims |
| `SlotLedgers.SlotLedger.ClaimSlot` | internal/domain/slot_ledger.go:72-93 | Claims a free slot below the maximum with a copy of the owner |
| `SlotLedgers.SlotLedger.Bind` | internal/domain/slot_ledger.go:97-119 | Sets the execution on the owner in place, and changes nothing but the ledger's own owners |
| `SlotLedgers.SlotLedger.ReleaseSlot` | internal/domain/slot_ledger.go:121-141 | Frees a slot only for its exact owner |
| `SlotLedgers.SlotLedger.Slots` | internal/domain/slot_ledger.go:155-173 | Every slot once, each with a fresh owner of equal value |
| `SlotLedgers.NewSlotLedger` | internal/domain/slot_ledger.go:41-70 | Succeeds exactly for sound nodes with different identifiers and a maximum within their capacity, with one empty slot for each index below each node's maximum; a refusal names the first bad node or the maximum |
| `StartupRecovery.ChoiceIgnoresOrder` | internal/app/agent_runner.go:160-166 | The command chosen for each execution does not depend on the order the store lists them in |
| `StartupRecovery.NewestCancelDecides` | internal/app/agent_runner.go:285-306 | A Cancel of the newest epoch decides the recovery of its execution |
| `StartupRecovery.ChoiceIsNewestDeciding` | internal/app/agent_runner.go:285-306 | The choice is of the newest epoch, there of the first kind in the order Cancel, Start, Prepare, other that was accepted, and of these the last by identifier |
| `StartupRecovery.PrecedesIsTotal` | internal/app/agent_runner.go:285-306 | Commands with different identifiers are always ordered |
| `StartupRecovery.ChooseCommands` | internal/app/agent_runner.go:160-166 | One pass leaves for each execution a command that no other replaces |

## Left out

- BrowserHandoff.ClaimedAtMostOnce: holds while fewer than 2^64 - 1 fences were allocated in the run, the point from which fences repeat.
- BrowserHandoff.Server.ClaimHandoff: one request by itself, with one clock value for commit or rollback; concurrent requests are the subject of the machine and its lemmas.
- SlotLedgers.SlotLedger.Slots: does not model the order of the returned slots.
- DarwinPersistence.PrivateMaterial.CollectReferences: does not model the sorting of references and paths; the results hold for every order, and an unreadable or malformed locator is one failed read.
- JitDriver.Coordinator.Drive: takes the reads of snapshot, history and provider as one piece of evidence for a pass, and the choice of the claim to drive as made.
- JitDriver.Coordinator.PrepareClaim: does not model the command it sends, only its reply and the durable state.
- Enrollment.MemoryRegistry.Enroll: the decoding of the code and the checks of the certificate request come before its sections and are not modelled; a certificate is a value that does not repeat.
- JitDriver.Coordinator.ReconcileAttempt: the reads of claim, snapshot and issued command are taken as one piece of evidence for a pass.
- Broker.AgentBroker.CloseBroker: does not model the broker's lifetime context, which only ends its network calls.
- JoinCodes.CanonicalHintsForgetOrder: host, port and URL normalization of a single hint is a parameter.
- Configurations.Validate: trimming, lower-casing, case folding and a profile's own rules are parameters; error texts are codes and fields.
- EventStream.NoInvalidationIsLost: a stream that ends, by expiry of its session or a failed write, is only removed.
- Whether a reconnecting event stream opens with a ready or a reset event, which compares two cursors for equality.
- The conversion between configured and domain runner profiles, certificate renewal times, and the audit guard of agent sessions, a simpler relative of the enrollment guard.
- Heartbeat content (owner state, eligible targets, readiness lease timing) and availability status text: no statement about the controller's latest view follows from them.
- The context of a session that is ready, its heartbeat lease, and the contexts and timeouts of the network calls.
- The broker's wire messages, snapshot cloning and error classification.
- What recovery does with the command it chose: it calls the native runner, which is not part of this model.
- The SQLite stores, the reconciler's in-memory projection, the runner and the transport, beyond the assumptions listed above.
- Cryptography, JSON and YAML parsing, the audit page cursor, HTTP routing and GitHub REST calls.
- The bootstrap-proof nonces and the GitHub manifest ledger, which are simpler relatives of the handoff ledger.
- Command-line tools, tray, web interface and platform launchers: input and output only.
