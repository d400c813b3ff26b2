# Verified models of the platform's stateful cores

The control plane and the agent of this platform move reports, credentials, alerts and audit records through code whose
promises hold over whole runs: queues that may not lose a report, files that may not be half there after a crash, rows
that several workers claim, secrets with one owner.  This project models that code in Dafny and proves those promises.

Each protocol is a value of its state, a function per atomic step (a section under a mutex, one channel operation, one
SQL statement or transaction, one file operation), and a `Run` over any sequence of steps.  Invariants are proved step by
step and then of every run.  Beside the functions stands the code in its own form, as classes and loops, whose contracts
tie the fields to those functions.

| files | what they model |
|---|---|
| HostLane, HostLaneRuns, HostLaneGuarantees | the coalescing per-agent delivery lane for hellos, heartbeats and host observations |
| Enrollment, EnrollmentResume, EnrollmentFiles | the agent's enrolment directory, what a crash leaves of it, what a run makes of it, and single file operations |
| EnrollmentProgress, EnrollmentPreparing, EnrollmentPublishing, EnrollmentRuns, EnrollmentWitnesses | preparing, completing and publishing an enrolment, whole runs, and any number of runs and crashes |
| ObservationLanes, ObservationRuns, ObservationResults | the plugin observation and discovery dispatchers, their runs, and what becomes of a sink result |
| AlertEvents, AlertEvaluator, AlertHistory | the alert lifecycle, its storage check, the evaluator and the rule it follows |
| DeliveryLeases | notification deliveries under expiring leases |
| Canonical | the texts hashed into fingerprints, keys and identifiers |
| AuditDetail, AuditPages | the audit sanitizer, its validator, and listing by cursor |
| LeaseWaiters | ownership of leased secrets |
| CommandShape | the shape of reconcile commands |
| Strings, Wrappers | small shared definitions |

Conventions: times are integers and, where the code knows a zero time, 0; digests are injective; random
identifiers, clocks, server answers and failures of single operations are parameters or free choices; counters and
revisions are unbounded.

## Where the code does less than it seems to

* **A retry of the host lane can be forgotten.**  `next` computes the waiting time with a second clock reading
  (backend/internal/agentcontrol/host_observer.go:368-370); if the retry has come due in between, `wait` sets no timer.
  `ScanIsAttentiveExactly` gives the exact condition, `LateReadingForgetsRetry` a run.
* **A pledged enrolment key can be replaced.**  When neither loading nor recovering works, the stage is discarded with a
  key whose request the server may have seen.  That happens when the key cannot be read, or neither the signing request
  nor the whole seal can (`KeyIsLostExactlyWhen`), and also when a removal, write or sync of loading or recovering fails
  and nothing else is there to load (`ResumeOrGiveUp`, `FailedRewriteLosesKey`).  `TwoKeys` is a run with two keys;
  `Lifetime` says that without such a moment in between all requests carry one key.
* **A stage can be in the way of another token for good.**  A run that stops after the finalized manifest is written and
  before the signing request is removed (backend/cmd/agent/enrollment_generation.go:406-419) leaves a stage from which a
  run for another token recovers key and request, and which it can never publish.  `Enroll` gives the exact condition
  under which a run goes through, `AnotherTokenNeverEnrolls` the runs that do not.
* **The discovery dispatcher strands a report** that was waiting when a timed-out delivery is released, since no worker is
  restarted.  `StrandsExactlyWhen`, `StrandedStays` and `DiscoveryStrandsReport` say when, that it lasts, and show one.
* **A retry can be scheduled past the third attempt**: an update checks the worker but not the attempt, and one worker
  identity serves both `Dispatch` and `RetryDue`.  `RetryBoundBreaksExactlyWhen`, `CarefulRunsKeepRetries` and
  `RetryAfterFourthAttempt` say when, when not, and show one; the other bounds hold without any condition.

## Model

| member | source | states |
|---|---|---|
| HostLane.Merge | backend/internal/agentcontrol/host_observer.go:582-593 | of two events of a lane's kind the one of higher rank stays, and the first when they tie |
| HostLane.NextRotates | backend/internal/agentcontrol/host_observer.go:328-372 | a pass takes the first due agent out and keeps the others in cyclic order; when nothing is due the queue is unchanged, no pending idle agent is due, and the lane finishes exactly when it is closing and holds nothing |
| HostLane.SubmitKeepsQueue | backend/internal/agentcontrol/host_observer.go:278-305 | `queued` and `queue` agree without repeats and every pending agent that is not active is queued, also after a submit |
| HostLane.NextKeepsQueue | backend/internal/agentcontrol/host_observer.go:328-372 | the same after a pass over the queue |
| HostLane.TimeoutKeepsQueue | backend/internal/agentcontrol/host_observer.go:438-465 | the same after a delivery timeout |
| HostLane.CompleteKeepsQueue | backend/internal/agentcontrol/host_observer.go:467-509 | the same after a delivery result, in time or late |
| HostLane.FailuresBackOff | backend/internal/agentcontrol/host_observer.go:438-509 | after a failure an agent is due again exactly when the back-off is over, counted from the timeout where there was one |
| HostLane.SubmitIsExact | backend/internal/agentcontrol/host_observer.go:278-305 | a submission is answered closed exactly by a lane that is not started or not accepting, capacity exactly by an accepting one where the agent is neither pending nor active and the pending and active agents together number the maximum or more, accepted otherwise; a refused one changes a counter at most, an accepted one is pending, due at once and queued unless its agent is being delivered, and other agents are untouched |
| HostLane.HostObservationLane.constructor | backend/internal/agentcontrol/host_observer.go:145-164 | an empty lane that satisfies the queue invariant |
| HostLane.HostObservationLane.Start | backend/internal/agentcontrol/host_observer.go:270-276 | the lane starts accepting and nothing else changes |
| HostLane.HostObservationLane.EnqueueLocked | backend/internal/agentcontrol/host_observer.go:557-563 | an agent is appended unless it is queued |
| HostLane.HostObservationLane.DistinctKeysLocked | backend/internal/agentcontrol/host_observer.go:565-573 | the counting loop returns the number of agents that are pending or active |
| HostLane.HostObservationLane.SubmitEvent | backend/internal/agentcontrol/host_observer.go:278-305 | the fields and the answer become those of `Submit`, which `SubmitIsExact` pins |
| HostLane.HostObservationLane.Scan | backend/internal/agentcontrol/host_observer.go:334-357 | the rotating loop stops at the first due entry, drops stale entries, keeps the order of the rest and finds the earliest retry time |
| HostLane.HostObservationLane.TakeNext | backend/internal/agentcontrol/host_observer.go:328-372 | the fields become those of `Next` |
| HostLane.HostObservationLane.TimeoutDelivery | backend/internal/agentcontrol/host_observer.go:438-465 | the fields become those of `Timeout` |
| HostLane.HostObservationLane.CompleteDelivery | backend/internal/agentcontrol/host_observer.go:467-509 | the fields become those of `Complete` |
| HostLane.HostObservationLane.Close | backend/internal/agentcontrol/host_observer.go:511-517 | the lane stops accepting and begins to close |
| HostLane.HostObservationLane.AbortLane | backend/internal/agentcontrol/host_observer.go:519-544 | the lane is emptied and what it held is counted as discarded |
| HostLaneRuns.LatestIsFirstMaximum | backend/internal/agentcontrol/host_observer.go:582-593 | merging any list of events leaves the first one of highest rank |
| HostLaneGuarantees.NoAcceptedEventIsLost | backend/internal/agentcontrol/host_observer.go:278-509 | in every run the value held for an agent is the first maximum of all events accepted in its stay, and without an abort a stay ends only by a successful sink call, not timed out, made with that very event |
| HostLaneGuarantees.AgentsLeaveByDelivery | backend/internal/agentcontrol/host_observer.go:401-509 | which steps can end a stay, and with which event |
| HostLaneGuarantees.OpenLaneAccepts | backend/internal/agentcontrol/host_observer.go:278-305 | in every run an accepting lane with a place for the agent accepts every event of its kind, counts it, adds it to the agent's stay and has it due at once unless the agent is being delivered |
| HostLaneGuarantees.AcceptsUntilClosed | backend/internal/agentcontrol/host_observer.go:511-544 | a started lane stops accepting only by a close or an abort |
| HostLaneGuarantees.CountersCount | backend/internal/agentcontrol/host_observer.go:278-509 | in every run the counters are the numbers of accepted submissions, of submissions refused for want of room, of good results in time, and of bad ones and timeouts |
| HostLaneGuarantees.EveryRunStaysInBounds | backend/internal/agentcontrol/host_observer.go:145-164 | pending-or-active agents never exceed the maximum, no agent has two sink calls, every returning sink call finds room in the results channel |
| HostLaneGuarantees.ResultsNeverBlock | backend/internal/agentcontrol/host_observer.go:401-423 | a result sender never blocks, not even after an abort |
| HostLaneGuarantees.MatchingResultIsThisAttempt | backend/internal/agentcontrol/host_observer.go:401-423 | while the worker delivers, the one outstanding call of that agent is the attempt it started, so that the agent ID recognises the result |
| HostLaneGuarantees.EveryRunBalances | backend/internal/agentcontrol/host_observer.go:438-544 | accepted minus coalesced equals ended stays plus held plus discarded; accepted is at least delivered plus pending plus active in time; failed equals retried |
| HostLaneGuarantees.GracefulFinishHoldsNothing | backend/internal/agentcontrol/host_observer.go:307-372 | a graceful end finds nothing pending, active or in flight |
| HostLaneGuarantees.StepKeepsInv | backend/internal/agentcontrol/host_observer.go:278-544 | every step of submitters, worker, sink calls, timers, closing and aborting keeps the whole invariant |
| HostLaneGuarantees.RunsKeepInv | backend/internal/agentcontrol/host_observer.go:278-544 | so does every run |
| HostLaneGuarantees.FreshInv | backend/internal/agentcontrol/host_observer.go:145-164 | and a new lane satisfies it |
| HostLaneGuarantees.ScanIsAttentiveExactly | backend/internal/agentcontrol/host_observer.go:368-399 | a pass leaves the worker with something to wake it for every waiting retry if and only if its second clock reading still precedes the earliest retry time |
| HostLaneGuarantees.NoRetryIsForgotten | backend/internal/agentcontrol/host_observer.go:307-399 | a run whose passes meet that condition never leaves a retry behind |
| HostLaneGuarantees.LateReadingForgetsRetry | backend/internal/agentcontrol/host_observer.go:368-399 | a run that does not meet it and ends with a due retry, no timer, no token and no call, where no step of the lane itself changes anything |
| Enrollment.CrashKeeps | backend/cmd/agent/enrollment_generation.go:633-697 | whatever a crash leaves, with unsynced removals and renames surviving in any subset, satisfies the invariant again |
| Enrollment.PutKeeps | backend/cmd/agent/enrollment_generation.go:633-672 | creating or replacing one entry keeps all-or-nothing output and the promised key |
| Enrollment.DeleteKeeps | backend/cmd/agent/enrollment_generation.go:674-728 | removing one entry keeps them |
| Enrollment.SyncKeeps | backend/cmd/agent/enrollment_generation.go:786-796 | syncing the directory keeps them |
| Enrollment.MoveKeeps | backend/cmd/agent/enrollment_generation.go:369-435 | renaming a settled, complete stage to the output path keeps them |
| EnrollmentResume.SealedLoads | backend/cmd/agent/enrollment_generation.go:217-286 | a finalized stage or output loads with its key |
| EnrollmentResume.RepeatableResumes | backend/cmd/agent/enrollment_generation.go:288-318 | key and signing request on disk are enough to recover, and nothing else can be loaded beside them than that key |
| EnrollmentResume.SameKeyAfterAnyCrash | backend/cmd/agent/enrollment_generation.go:99-367 | a pledged key is found again after any crash, by loading, recovering or at the output path; starting over is not reached |
| EnrollmentResume.KeyIsLostExactlyWhen | backend/cmd/agent/enrollment_generation.go:99-318 | for every staging directory with a pledged key and every set of unreadable files: the next run starts over with a new key if and only if the key cannot be read, or neither the signing request nor the whole seal can |
| EnrollmentResume.OutputLoadsExactlyWhen | backend/cmd/agent/enrollment_generation.go:191-215 | an output directory is a run's own if and only if all four files can be read, nothing else is there, the finalized manifest vouches for the other three and is for this agent and token; what is loaded are those files |
| EnrollmentResume.ResumedCanBePledged | backend/cmd/agent/enrollment_generation.go:99-189 | a key that prepare returns from a settled directory is safe on disk |
| EnrollmentFiles.WriteAtomic | backend/cmd/agent/enrollment_generation.go:633-672 | temporary file, rename and sync: succeeds exactly when the file was not there and no operation failed, then it is there and settled; other files are untouched in every case, and the invariant holds at every point in between |
| EnrollmentFiles.WriteResumable | backend/cmd/agent/enrollment_generation.go:605-631 | the same; a file that is already there with the same contents is accepted, any other and an unreadable one is replaced, and it succeeds when no operation fails |
| EnrollmentFiles.CleanupTemporaries | backend/cmd/agent/enrollment_generation.go:674-697 | only temporary files go, and the directory is settled |
| EnrollmentProgress.CompletedPublishes | backend/cmd/agent/enrollment_generation.go:324-435 | a prepared generation that was completed passes the checks of publish if and only if no finalized manifest that a load would follow fails to vouch for this key, certificate and CA |
| EnrollmentProgress.CompletedLoads | backend/cmd/agent/enrollment_generation.go:324-367 | what is loaded of a completed generation is the manifest just written, where no finalized one was before |
| EnrollmentProgress.AnswerIsPublished | backend/cmd/agent/enrollment_generation.go:324-414 | the finalized form of that manifest says agent, token, host, revision, certificate and CA of the answer |
| EnrollmentProgress.WedgedIsBlocked | backend/cmd/agent/enrollment_generation.go:217-318 | beside a finalized manifest of another agent or token, a matching key and signing request are never loaded, always recovered and never publishable, whatever the certificate and CA |
| EnrollmentPreparing.LoadStage | backend/cmd/agent/enrollment_generation.go:217-286 | returns what `Load` finds, exactly when it finds something and no removal or sync of superseded manifests fails |
| EnrollmentPreparing.RecoverStage | backend/cmd/agent/enrollment_generation.go:288-318 | returns what `Recover` finds and writes its manifest, exactly when it finds something and no removal, write or sync of it fails |
| EnrollmentPreparing.ResumeStage | backend/cmd/agent/enrollment_generation.go:133-141 | loading and then recovering, with any file unreadable and any operation failing: the exact result, and what is left of the files |
| EnrollmentPreparing.ResumeOrGiveUp | backend/cmd/agent/enrollment_generation.go:133-149 | neither works only if too little can be read or an operation of the two failed, and only then is a pledged key given up |
| EnrollmentPreparing.ResetStage | backend/cmd/agent/enrollment_generation.go:699-728 | ends without a staging directory, is reached only with nothing pledged, leaves unknown entries as they are and never goes through beside one; without failures it goes through exactly when there is none |
| EnrollmentPreparing.PrepareFresh | backend/cmd/agent/enrollment_generation.go:160-189 | a new key is returned only when key, request and manifest are settled on disk |
| EnrollmentPreparing.Prepare | backend/cmd/agent/enrollment_generation.go:99-189 | with any files unreadable and any operations failing: the generation returned has its key safe on disk; a pledged key is returned again unless it was lost, which without failures happens exactly when too little can be read, and otherwise only if loading or recovering met a failure; what comes instead is the new key; without failures and stray entries it returns unless an output directory is not its own; an output directory is not touched |
| EnrollmentPublishing.CompleteGeneration | backend/cmd/agent/enrollment_generation.go:324-367 | for every phase: the files written and the manifest made of the answer, all else untouched; without failures it succeeds exactly when the answer is acceptable; a pledged key is given up only where its signing request had gone before |
| EnrollmentPublishing.CheckStage | backend/cmd/agent/enrollment_generation.go:389-405 | what is left to publish is a settled, completed or finalized generation for this agent and token, with the pledged key; without failures exactly the stages that are publishable pass |
| EnrollmentPublishing.Finalize | backend/cmd/agent/enrollment_generation.go:406-414 | afterwards key, certificate, CA and finalized manifest vouch for each other, and nothing else has changed |
| EnrollmentPublishing.DropTransitional | backend/cmd/agent/enrollment_generation.go:415-422 | the request and the earlier manifests go and nothing else |
| EnrollmentPublishing.MoveFinalized | backend/cmd/agent/enrollment_generation.go:406-429 | finalizing, reducing and renaming: on success the directory is at the output path with the loaded manifest finalized, and without failures it succeeds |
| EnrollmentPublishing.PublishGeneration | backend/cmd/agent/enrollment_generation.go:369-435 | on success the output directory is settled, holds exactly the four files with matching digests, holds the pledged key, the trusted CA and the finalized form of the manifest that a load finds; without failures it succeeds exactly when the response is trusted and the stage or output is publishable for this CA |
| EnrollmentRuns.PreparedDecides | backend/cmd/agent/enrollment_generation.go:99-189 | whether the run goes through is decided by the directory it found: what prepare makes of it is blocked or publishable exactly when that directory was |
| EnrollmentRuns.RequestAndPublish | backend/cmd/agent/enroll.go:113-133 | the request carries the prepared key; what is published is what the server answered (host, revision, certificate) with the configured CA, unless a finalized manifest was there before; without an answer nothing changes; and when it goes through |
| EnrollmentRuns.Enroll | backend/cmd/agent/enroll.go:99-135 | one whole run, with any files unreadable and any operations failing: a request carries the pledged key unless that was lost or hindered; success means a settled, complete output directory with the key that was asked for, a trusted answer, the configured CA and, where no finalized manifest was there before, the answer of the server; and without failures, with a good answer and no stray entry, the run ends well if and only if `Enrolls` says so of the directory it found, any directory that satisfies the invariant |
| EnrollmentRuns.PledgeIsGivenUpAtRisk | backend/cmd/agent/enrollment_generation.go:99-189 | over any log of runs and crashes, a pledge that is no longer there was at risk at a moment in between: too little could be read, or an operation of loading or recovering failed |
| EnrollmentRuns.Lifetime | backend/cmd/agent/enrollment_generation.go:99-435 | any number of runs with any files unreadable and any operations failing, each cut off after any file operation by a stopped process or a crash: the output is all or nothing, a settled output never changes, two requests carry different keys only if the pledged key was at risk in between, and in runs where it never is all requests carry one key that the disk still holds |
| EnrollmentWitnesses.TwoKeys | backend/cmd/agent/enrollment_generation.go:133-149 | two runs without failures whose requests carry different keys: the second cannot read the signing request and discards a readable key |
| EnrollmentWitnesses.FailedRewriteLosesKey | backend/cmd/agent/enrollment_generation.go:288-318 | with every file readable, failing operations in recovering give up a pledged key that a load cannot find |
| EnrollmentWitnesses.StopBeforeCleanup | backend/cmd/agent/enrollment_generation.go:369-422 | a favourable run, stopped after the finalized manifest is written and before the signing request is removed, leaves a stage that only its own token gets past |
| EnrollmentWitnesses.NoRunGetsPast | backend/cmd/agent/enrollment_generation.go:99-435 | any number of later runs without failures for another token end without success, whatever the server answers, and leave the stage as it is in the way |
| EnrollmentWitnesses.AnotherTokenNeverEnrolls | backend/cmd/agent/enrollment_generation.go:99-435 | the two together, from an empty disk |
| ObservationLanes.ObservationDispatcher.ScreenReport | backend/internal/agentcontrol/plugin_observation_dispatcher.go:93-115 | the answer before a lane is looked at: closed, stale, conflicting, recent duplicate, or no room for another lane |
| ObservationLanes.ObservationDispatcher.SubmitReport | backend/internal/agentcontrol/plugin_observation_dispatcher.go:83-139 | state and answer are those of `Submit`, for both dispatchers |
| ObservationLanes.ObservationDispatcher.TakePending | backend/internal/agentcontrol/plugin_observation_dispatcher.go:174-185 | the waiting report becomes the active one |
| ObservationLanes.ObservationDispatcher.RetireLane | backend/internal/agentcontrol/plugin_observation_dispatcher.go:274-282 | the lane is unregistered exactly when it holds nothing |
| ObservationLanes.ObservationDispatcher.ReleaseLane | backend/internal/agentcontrol/plugin_observation_dispatcher.go:230-239 | the section of the quarantine waiter, of both dispatchers, and when it restarts a worker |
| ObservationLanes.ObservationDispatcher.RemoveFromOrder | backend/internal/agentcontrol/plugin_observation_dispatcher.go:252-257 | the loop removes the first occurrence and keeps the rest in order |
| ObservationLanes.ObservationDispatcher.Trim | backend/internal/agentcontrol/plugin_observation_dispatcher.go:259-266 | the loop drops exactly the oldest surplus and forgets those agents, sparing agents with a lane in the plugin dispatcher |
| ObservationLanes.ObservationDispatcher.Persisted | backend/internal/agentcontrol/plugin_observation_dispatcher.go:248-267 | what is remembered and in which order, as `PersistPlugin` says |
| ObservationLanes.ObservationDispatcher.Remember | backend/internal/agentcontrol/discovery_observer.go:268-283 | the same for `PersistDiscovery` |
| ObservationResults.AcceptedExactlyWhen | backend/internal/agentcontrol/plugin_observation_dispatcher.go:83-139 | a submission to either dispatcher is accepted if and only if it is valid and open, its revision is above the persisted one or the same report comes again after the refresh interval (to discovery at any time), there is a lane or room for one, and the lane holds nothing as new (and, in discovery, has no timed-out call); an accepted report is the one that waits and its lane has a token; what the answers closed, duplicate and capacity imply |
| ObservationResults.PersistedMeansDone | backend/internal/agentcontrol/plugin_observation_dispatcher.go:186-267 | in every run of either dispatcher what is remembered of an agent was handed to the sink by a call of that agent's lane with that very report, and that call ended well, in time or late |
| ObservationResults.ActiveEndsOnlyBy | backend/internal/agentcontrol/plugin_observation_dispatcher.go:186-247 | in every run a report stays the active one of its lane until a call with it ended well (or was rejected by the discovery sink) or a timed-out call with it is released |
| ObservationResults.FailedCallIsRepeated | backend/internal/agentcontrol/plugin_observation_dispatcher.go:192-215 | a report whose call failed in time, in discovery unless it was rejected, is still active after the pause and is called again, and nothing is remembered |
| ObservationResults.OnlyGoodResultsPersist | backend/internal/agentcontrol/plugin_observation_dispatcher.go:192-239 | a result leads to persisting if and only if it is good, in time or late; any other late one leads to the release |
| ObservationResults.GoodResultIsRemembered | backend/internal/agentcontrol/plugin_observation_dispatcher.go:192-267 | in every run of either dispatcher the report of a good result, in time or late, is then what is remembered of its agent, by the plugin dispatcher with the time |
| ObservationResults.RunsKeepBook | backend/internal/agentcontrol/discovery_observer.go:268-283 | in every run the discovery dispatcher lists the agents it remembers once each and at most its maximum |
| ObservationResults.OnlyOldestAreForgotten | backend/internal/agentcontrol/plugin_observation_dispatcher.go:248-267 | an agent is forgotten only when as many as may be listed (four times the maximum in the plugin dispatcher, the maximum in discovery) were persisted after it, and by the plugin dispatcher only without a lane; the list stays within that number |
| ObservationRuns.StepKeepsInv | backend/internal/agentcontrol/plugin_observation_dispatcher.go:83-282 | every step of submitters, lane goroutines, sink calls, timeouts and closing keeps the invariant, in both dispatchers |
| ObservationRuns.RunsKeepInv | backend/internal/agentcontrol/plugin_observation_dispatcher.go:83-282 | so does every run |
| ObservationRuns.OneCallPerAgent | backend/internal/agentcontrol/plugin_observation_dispatcher.go:186-247 | in every run of either dispatcher at most one sink call is in flight per agent |
| ObservationRuns.LanesStayOrdered | backend/internal/agentcontrol/plugin_observation_dispatcher.go:111-139 | in every run lanes stay within their number, a waiting report is strictly newer than the active one, and neither is older than what was persisted |
| ObservationRuns.AcceptedIsNewest | backend/internal/agentcontrol/plugin_observation_dispatcher.go:120-133 | an accepted report is newer than everything its lane holds and not older than what was persisted |
| ObservationRuns.PersistedNeverDecreases | backend/internal/agentcontrol/plugin_observation_dispatcher.go:248-267 | over every run in which an agent's record is kept, its revision never decreases, and equal revisions are the same report |
| ObservationRuns.NoPluginReportIsStranded | backend/internal/agentcontrol/plugin_observation_dispatcher.go:153-247 | in every run, while the plugin dispatcher is open, each waiting report has a goroutine that is not asleep without a token |
| ObservationRuns.WaitingReportCanBeTaken | backend/internal/agentcontrol/plugin_observation_dispatcher.go:153-247 | from every such state steps of that goroutine and its sink call alone lead to the report being taken |
| ObservationRuns.OthersDoNotDelay | backend/internal/agentcontrol/plugin_observation_dispatcher.go:83-247 | no step of any other goroutine, submitter or sink call, and no timeout, moves the lane further from taking the report or takes it away, except by a newer one of the same agent |
| ObservationRuns.EveryFairScheduleTakes | backend/internal/agentcontrol/plugin_observation_dispatcher.go:83-247 | every schedule of the open dispatcher, with any steps of others in between, takes the report or a newer one before the lane has had more turns than it is away, a turn being a step of its goroutine or the good return of the call it waits for |
| ObservationRuns.StrandsExactlyWhen | backend/internal/agentcontrol/discovery_observer.go:229-244 | a step strands a report of the open discovery dispatcher if and only if it is the quarantine waiter releasing a lane with a waiting report |
| ObservationRuns.StrandedStays | backend/internal/agentcontrol/discovery_observer.go:80-144 | a stranded report stays stranded whatever is submitted or happens later |
| ObservationRuns.DiscoveryStrandsReport | backend/internal/agentcontrol/discovery_observer.go:187-244 | a run that strands one |
| AlertEvents.TransitionIsExact | backend/internal/alert/model.go:396-434 | a valid event moves on if and only if the edge is permitted and time does not go back, and stays valid with its identity and first sighting |
| AlertEvents.GateIsExact | backend/internal/alert/postgres.go:371-404 | the storage check accepts exactly what `Follows` allows, a definition by states and stamps, and reports a change exactly when the state differs |
| AlertEvents.MutateIsExact | backend/internal/alert/postgres.go:287-336 | when a write is accepted, with and without a supplied audit record |
| AlertEvents.MutateWrites | backend/internal/alert/postgres.go:287-336 | an accepted write files one valid event and adds one audit record exactly when the state changes |
| AlertEvents.StepKeepsInv | backend/internal/alert/postgres.go:239-336 | after any write, by any writer and of any event, the audit table is for every event a walk through the lifecycle that ends in its state |
| AlertEvents.RunsKeepInv | backend/internal/alert/postgres.go:239-336 | over every sequence of writes also: no event is lost, identity and first sighting stay, last sightings do not go back, audit records stay |
| AlertEvents.EventRepository.MutateEvent | backend/internal/alert/postgres.go:287-336 | tables and error are those of `Mutate` |
| AlertEvents.EventRepository.PutWrite | backend/internal/alert/postgres.go:239-258 | tables are those of `Step`, and the invariant stays |
| AlertEvaluator.JudgedFollows | backend/internal/alert/evaluator.go:322-376 | what the evaluator wants to write about a stored event is valid and acceptable if and only if time has not gone back |
| AlertEvaluator.OpeningFollows | backend/internal/alert/evaluator.go:301-320 | a new event is valid, acceptable and audited |
| AlertEvaluator.EvaluatorAgreesWithGate | backend/internal/alert/evaluator.go:293-388 | a result is written exactly when it asks for a write and is not before the stored last sighting, with one audit record exactly when the state changes; otherwise nothing changes |
| AlertEvaluator.ResultIsWrittenExactlyWhen | backend/internal/alert/evaluator.go:293-376 | a result is written if and only if it is not before the stored last sighting and there is no event and it holds or may create a resolved one, or there is an event and it holds or ends it; the stored event then has this time as last sighting, the evaluator as actor, the identity, rule and first sighting it had or was given, and the state, stamps and start of the run the result calls for; nothing else changes |
| AlertEvaluator.FindingAgreesWithGate | backend/internal/alert/evaluator.go:405-471 | a system finding goes through, with both of its writes, exactly when its truncated time is not before the stored last sighting; active ends firing or acknowledged, inactive absent or resolved |
| AlertEvaluator.WriteTransition | backend/internal/alert/evaluator.go:378-388 | the audited write |
| AlertEvaluator.ApplyResult | backend/internal/alert/evaluator.go:293-376 | tables and result are those of `Apply`, which `ResultIsWrittenExactlyWhen` pins |
| AlertEvaluator.ReconcileSystemFinding | backend/internal/alert/evaluator.go:405-471 | tables and result are those of `Reconcile` |
| AlertHistory.ResultMoves | backend/internal/alert/evaluator.go:293-376 | the next state of an event after one result, state by state, its sightings and its identity |
| AlertHistory.MissingDataIsResult | backend/internal/alert/evaluator.go:280-291 | missing data counts as a true result, as a false one that may create a resolved event, or not at all |
| AlertHistory.OperatorMoves | backend/internal/controlplane/http.go:281-323 | the next state after an operator acknowledges or resolves, its sightings and its identity |
| AlertHistory.EvaluatorFollowsRule | backend/internal/alert/evaluator.go:293-376 | for every history at non-decreasing times: firing or acknowledged exactly when two results of the present unbroken run lie the required time apart, acknowledged exactly when an acknowledgement followed, pending exactly when a run is shorter, absent exactly when nothing created the event; it was last seen at or after every true result, and first at the entry that created it, with the rule and identifier given then |
| AlertHistory.StoreFollowsHistory | backend/internal/alert/evaluator.go:293-388 | the same of the stored event, with any writes by anybody about other events in between, and the tables stay sound |
| DeliveryLeases.StepKeepsInv | backend/internal/alert/postgres.go:38-40 | every statement and worker step keeps the invariant |
| DeliveryLeases.RunsKeepInv | backend/internal/alert/notification.go:161-337 | so does every run of any number of workers |
| DeliveryLeases.AttemptsAreBounded | backend/internal/alert/notification.go:246-322 | in every run a delivery has at most four attempts and one more per expired lease, at most one channel call per attempt, and no audit record twice |
| DeliveryLeases.AuditIdsNeverRepeat | backend/internal/alert/notification.go:640-643 | in every run no two audit records have the same identifier text |
| DeliveryLeases.AbsorbingStays | backend/internal/alert/postgres.go:39-40 | delivered, suppressed and abandoned rows never change again, whatever runs |
| DeliveryLeases.OnlyDueRowsAreClaimed | backend/internal/alert/postgres.go:40-40 | a copy of an existing row is handed out, and an attempt counted, exactly by a claim of a row that is due or whose lease has run out |
| DeliveryLeases.RetriesWaitTheirTurn | backend/internal/alert/notification.go:310-315 | a rescheduled delivery is due exactly one, five and thirty minutes after its first, second and third failure |
| DeliveryLeases.LeasesLast | backend/internal/alert/postgres.go:40-40 | a claimed row can be claimed again exactly when its thirty seconds are over |
| DeliveryLeases.DeliveredExactlyWhen | backend/internal/alert/notification.go:296-306 | a step makes a row delivered, and records a delivery as delivered, if and only if it finishes a copy whose channel call was good and whose row is still attempted by the same worker |
| DeliveryLeases.RescheduledExactlyWhen | backend/internal/alert/notification.go:308-316 | the same of a scheduled retry: a retryable failure of one of the first three attempts |
| DeliveryLeases.AbandonedExactlyWhen | backend/internal/alert/notification.go:268-337 | the same of giving up: a fatal failure, a retryable one after the third attempt, no channel, or a misconfigured one |
| DeliveryLeases.EveryEndIsEarned | backend/internal/alert/notification.go:161-337 | in every run a delivered row has a channel call that was good, one waiting for a retry has a call among its first three that was retryable, and an abandoned one a recorded attempt without a call, with a fatal answer, or after the third |
| DeliveryLeases.FirstCopyIsReserved | backend/internal/alert/notification.go:161-244 | a new delivery is handed out exactly by its reservation, with a lease of thirty seconds, to be sent if it is configured and given up if not, and no channel is called for it before |
| DeliveryLeases.CarefulRunsKeepRetries | backend/internal/alert/notification.go:246-322 | while no worker claims a delivery of which it holds an unfinished copy, a scheduled retry follows one of the first three attempts and only the last copy can write |
| DeliveryLeases.RetryBoundBreaksExactlyWhen | backend/internal/alert/notification.go:296-322 | the next step can break that bound if and only if such an overtaken copy of the same worker exists |
| DeliveryLeases.RetryAfterFourthAttempt | backend/internal/alert/notification.go:246-322 | a run in which it breaks: a first attempt outlasts its lease and reports after the fourth was claimed |
| DeliveryLeases.DeliveryRepository.ReserveDelivery | backend/internal/alert/postgres.go:1190-1241 | one row per key; inserted with its audit record or not at all |
| DeliveryLeases.DeliveryRepository.ClaimDue | backend/internal/alert/postgres.go:1279-1304 | a due row is claimed whenever there is one, with the next attempt and a new lease |
| DeliveryLeases.DeliveryRepository.UpdateDelivery | backend/internal/alert/postgres.go:1243-1277 | row and audit record are written together, exactly when the row is still attempted by the same worker; the number of attempts is not written |
| DeliveryLeases.FinishAttempt | backend/internal/alert/notification.go:296-322 | is the send and finish steps of the protocol, whose effect `DeliveredExactlyWhen`, `RescheduledExactlyWhen` and `AbandonedExactlyWhen` pin |
| DeliveryLeases.RetryOne | backend/internal/alert/notification.go:268-291 | a claimed delivery is given up without a channel, and otherwise marked and, exactly if its row is still there for it, sent and finished with the channel's answer |
| DeliveryLeases.RetryDue | backend/internal/alert/notification.go:246-294 | the pass is these steps for each claimed delivery in turn, each claimed when it is due; it ends with a full batch or when nothing is due any more |
| Canonical.DecodeEncode | backend/internal/alert/model.go:467-474 | a length-prefixed text decodes to the list it was made from |
| Canonical.EncodeIsInjective | backend/internal/alert/model.go:467-474 | lists of any length with the same text are the same |
| Canonical.CanonicalParts | backend/internal/alert/model.go:467-474 | the loop builds that text |
| Canonical.CanonicalLabels | backend/internal/alert/model.go:453-465 | the loop builds the text of the label map, in key order |
| Canonical.LabelsTextIsStable | backend/internal/alert/model.go:453-465 | the text does not depend on the order in which the map is visited |
| Canonical.LabelsTextIsInjective | backend/internal/alert/model.go:453-465 | label maps with the same text are the same |
| Canonical.FingerprintIdentifies | backend/internal/alert/model.go:438-440 | two fingerprint texts are equal if and only if tenant, project, rule and label map are |
| Canonical.DeliveryKeyIdentifies | backend/internal/alert/notification.go:380-383 | equal delivery key texts agree in all six parts |
| Canonical.AuditIdIdentifies | backend/internal/alert/notification.go:640-643 | equal audit identifier texts agree in delivery, action and attempt, although the parts are not separated |
| AuditDetail.AcceptsExactly | backend/internal/audit/service.go:183-242 | the sanitizer accepts JSON of any depth if and only if it has no reserved or sensitive key, no credential in a text and a statement under every key for one |
| AuditDetail.ValueIsValid | backend/internal/audit/service.go:183-242 | whatever it returns passes the validator, with strictly ordered evidence |
| AuditDetail.PiecesAreValid | backend/internal/audit/service.go:457-477 | the evidence of an object is strictly ordered and each entry is in order |
| AuditDetail.ValidIsDiscreet | backend/internal/audit/service.go:414-477 | whatever the validator accepts, whoever wrote it, has no sensitive key and no name of a statement at any level |
| AuditDetail.ValidatorIsExact | backend/internal/audit/service.go:414-477 | the validator accepts JSON of any depth if and only if no key is sensitive or names a statement, no text has a credential, and evidence is a non-empty list of entries with exactly source field, digest and summary in order, strictly ascending by source field |
| AuditDetail.FirstFaultIsReported | backend/internal/audit/service.go:183-242 | a refused object has the error of its first field at fault, by the order reserved key, sensitive key, statement that is none, value |
| AuditDetail.ValueIsWellFormed | backend/internal/audit/service.go:214-216 | the evidence never collides with a field that stays |
| AuditDetail.EveryFieldIsAccountedFor | backend/internal/audit/service.go:183-218 | every field leaves exactly one trace in the result: itself sanitized, or in one list of evidence an entry with its own key, the digest of its own statement and the summary of that; and nothing else is recorded |
| AuditDetail.PlainDetailsAreKept | backend/internal/audit/service.go:183-242 | details without statements are kept as they are |
| AuditDetail.SanitizeJson | backend/internal/audit/service.go:220-242 | is `SanitizeValue` |
| AuditDetail.SanitizeList | backend/internal/audit/service.go:224-233 | the loop over a list, stopping at the first error |
| AuditDetail.SanitizeObject | backend/internal/audit/service.go:183-218 | the loop over sorted keys, stopping at the first error |
| AuditDetail.ValidateSqlEvidence | backend/internal/audit/service.go:457-477 | the loop accepts exactly valid, strictly ordered evidence |
| AuditPages.PageIsNextPiece | backend/internal/audit/service.go:103-150 | a page is the next piece of the listing, full unless it is the last, and its cursor stands for exactly what is left |
| AuditPages.PagesAreComplete | backend/internal/audit/service.go:103-150 | for every limit and scope, following the cursors from the start ends and returns each event of the scope exactly once in order |
| AuditPages.ListedExactlyWhen | backend/internal/audit/service.go:103-150 | a page is returned if and only if scope and limit are in order, the cursor is of this scope and the rows asked for pass the validator, with a limit of 50 where none is given; otherwise which error |
| AuditPages.FirstBadRowDecides | backend/internal/audit/service.go:124-145 | what the store returned is refused if and only if some row is of another scope or fails the validator, with the error of the first such row |
| AuditPages.MakePage | backend/internal/audit/service.go:124-145 | the loop that checks scope and detail of each row returns the page or the first fault |
| AuditPages.LaterMatches | backend/internal/audit/postgres.go:18-19 | the query after a position returns what the listing has after it |
| LeaseWaiters.StepKeepsInv | backend/internal/agent/controlclient.go:1052-1154 | every step of callers, responses and session loss keeps each lease in one place |
| LeaseWaiters.RunsKeepInv | backend/internal/agent/controlclient.go:1052-1154 | so does every run |
| LeaseWaiters.LeasesHaveOneOwner | backend/internal/agent/controlclient.go:1052-1154 | in every run no lease is returned or released twice, or both, or still held afterwards |
| LeaseWaiters.NoLeaseIsLeftBehind | backend/internal/agent/controlclient.go:1069-1083 | once callers have returned and results are delivered, every lease ever built was returned once or released once |
| LeaseWaiters.GoneWaiterStaysEmpty | backend/internal/agent/controlclient.go:1069-1083 | a waiter whose caller has returned is cancelled and its channel is empty |
| LeaseWaiters.SlotIsNeverFull | backend/internal/agent/controlclient.go:1136-1140 | a delivery never finds the channel full |
| LeaseWaiters.LeaseAnswersItsRequest | backend/internal/agent/controlclient.go:1116-1121 | a lease a caller returns answers that caller's request |
| LeaseWaiters.ResponseMakesLeaseExactlyWhen | backend/internal/agent/controlclient.go:1096-1123 | a response under a registered nonce makes a lease for that waiter if and only if it is valid and equals its request, and a failure otherwise |
| LeaseWaiters.DeliveryReachesWaiterExactlyWhen | backend/internal/agent/controlclient.go:1125-1141 | a result fills its waiter's channel if and only if the caller has not returned; it is released if and only if the caller has |
| LeaseWaiters.FittingResponseIsOwed | backend/internal/agent/controlclient.go:1096-1123 | a fitting response makes its lease owed to a caller that still waits: on its way, in the channel, in hand or returned |
| LeaseWaiters.PatientCallerGetsLease | backend/internal/agent/controlclient.go:1052-1154 | in every continuation in which that caller does not give up, an owed lease stays owed and is never released, and once all callers have returned it was returned once |
| LeaseWaiters.WaitingLeaseIsReturned | backend/internal/agent/controlclient.go:1069-1141 | from a waiting caller with a lease on its way, deliver, receive, leave and drain return exactly that lease and release none |
| LeaseWaiters.StoppedCallerReturnsNothing | backend/internal/agent/controlclient.go:1069-1083 | a caller whose request could not be sent or whose context ended returns nothing, and what had reached its channel is released |
| LeaseWaiters.LeaseClient.Register | backend/internal/agent/controlclient.go:1060-1068 | the registry and waiter of the call step; a nonce in use is refused |
| LeaseWaiters.LeaseClient.HandleResponse | backend/internal/agent/controlclient.go:1096-1123 | the respond step: a lease is built only for the waiter that asked |
| LeaseWaiters.LeaseClient.DeliverResult | backend/internal/agent/controlclient.go:1125-1141 | the deliver step, which `DeliveryReachesWaiterExactlyWhen` pins |
| LeaseWaiters.LeaseClient.LeaveRegistry | backend/internal/agent/controlclient.go:1070-1074 | the first half of the way out |
| LeaseWaiters.LeaseClient.EmptySlot | backend/internal/agent/controlclient.go:1075-1082 | the second half |
| LeaseWaiters.LeaseClient.FailWaiters | backend/internal/agent/controlclient.go:1143-1154 | the loop empties the registry and sends exactly one failure to each waiter that was in it, and to no other |
| CommandShape.ValidIdentifierList | backend/internal/commandvalidation/validation.go:395-410 | accepts exactly bounded lists of different identifiers |
| CommandShape.ValidPluginDescriptors | backend/internal/commandvalidation/validation.go:412-442 | accepts exactly as many descriptors as instances, each in order, of an instance, none twice |
| CommandShape.ValidPluginDescriptorShape | backend/internal/commandvalidation/validation.go:269-275 | requires them exactly in the running and installed states |
| CommandShape.DescriptorsAreInBijection | backend/internal/commandvalidation/validation.go:412-442 | then every instance has exactly one descriptor, and the instances cannot repeat |
| CommandShape.ValidReconcileTemplateShape | backend/internal/commandvalidation/validation.go:198-242 | accepts exactly what `TemplateShape` describes without counting |
| CommandShape.CheckRevisions | backend/internal/commandvalidation/validation.go:205-219 | the table of revisions, and the count that means every template is covered |
| CommandShape.CheckTemplates | backend/internal/commandvalidation/validation.go:229-239 | the inner loop over one instance |
| CommandShape.CheckAssignments | backend/internal/commandvalidation/validation.go:220-241 | the loop over instances, and the count that means every revision is used |
| CommandShape.AssignmentsAreExactCover | backend/internal/commandvalidation/validation.go:198-242 | an accepted command with templates assigns every instance once, only authoritative revisions, every revision somewhere, and revisions of exactly the listed templates |

## Left out

- ObservationRuns.NoPluginReportIsStranded: says nothing of a closed dispatcher.
- ObservationRuns.EveryFairScheduleTakes: says nothing of a sink that never returns or always fails, since the source then waits or retries without end.
- AlertHistory.EvaluatorFollowsRule: each evaluation reads and writes in one step; a write prepared from an older copy is covered by the storage check, for which any event by any writer is considered.
- DeliveryLeases.DeliveryRepository.ClaimDue: takes any due row, not the one that is due longest, because rows locked by another transaction are skipped and any due row can be the first one left.
- Host lane: results in the channel are unordered, and the three lanes of one dispatcher are independent.
- Observation dispatchers: acknowledging a discovery report is part of the pause before its lane is cleared; the validity of a single report is one flag; the number of remembered plugin agents is not bounded, since an agent with a lane is spared and then no longer listed.
- Enrolment: whether a file can be read does not change within a run; certificate, PEM and signing checks are flags; permissions, symbolic links and size limits are not modelled; a directory sync settles all entries of the directory.
- Alerts: labels and evidence other than the time since which a condition holds, dispositions, root causes, rounding of stored times, aggregation and comparison of samples, scheduling of rules.
- Deliveries: routing, silences, rendering, the legacy idempotency key, and checks on single fields of a delivery.
- Audit: JSON encoding, Unicode rules of key normalisation, the patterns for credentials, the encoding of cursors, database collation, and deduplicated recording.
- Leases: clearing the bytes of a response after they are copied, and the further bounds on single fields of a response.
- Commands: every other command kind, target authorisation and execution windows.
- Strings: white space is the four ASCII characters that occur in practice.
- Uniqueness of identifiers is of the hashed texts; collisions of SHA-256, whole or truncated, are not considered.
- 64-bit overflow of counters and revisions.
