# Proofs about the agent runtime

This project models the parts of the repository in which state, concurrency and failure meet, and
proves what they promise.  Each component is modelled in its own form: stores, builders, logs and
loops are Dafny classes and methods with invariants; the races between coroutines, uploaders,
subscribers and clocks are transition systems over which run-level theorems are proved; the codecs
and checks are functions.  `dafny verify dfyconfig.toml` checks everything.

## What is modelled

**Sandbox Manager** (`StateTables`, `StateStore`, `ManagerProtocol`, `ManagerInvariant`,
`ManagerTransactions`, `ManagerSteps`, `ManagerHistory`, `ManagerTheorems`, `ManagerStatus`,
`ManagerRestore`, `ManagerBoxes`, `ManagerCare`, `ManagerOperations`, `ManagerProgress`,
`ManagerStartup`, `OperationKeys`).
`StateStore` runs the statements of each transaction; its contracts tie it to functions on the
tables.  `ManagerProtocol` interleaves those transactions with Docker calls, crashes and restarts.
Its `World` carries history that the code does not keep: which containers exist, at which
generation the head was committed, when a workspace was last released.  `ManagerHistory` says what
one step may do to the facts that the theorems follow through a run.  Three tables, one each for
workspace, sandbox and operation rows (`StatusAfter`, `BoxAfter`, `Reports`), say independently of
the transactions what every step makes of every row; what restores, leases and reported results
mean over runs is proved from them.  `ManagerStartup` is the startup code as loops over an object
whose ghost field is a run of that protocol.

**Event delivery** (`EventLog`, `EventDelivery`).  A bounded log, a connection that may break at
any time, and a driver that resumes from its cursor.

**Translation** (`ResponseTranslation`, `ResponseInvariant`, `ResponseBuilder`,
`ResponseLifecycle`, `ResponseTheorems`, `ResponseCalls`, `ResponseMessage`, `ResponseEnding`,
`ResponseText`, `Subscribers`).  Functions say how each notification changes
the record and what it emits; the classes `ResponseRecord`, `ResponsesEventBuilder` and
`ActiveExecution` are proved to follow them; theorems hold for every sequence of notifications.
The stories of `ResponseCalls` and `ResponseMessage` give all events about a call and about the
message, and what the record shows of them, as functions of the notifications alone.

**Artifacts** (`ArtifactUpload`, `ArtifactCommit`).  The re-blocking loop, and uploaders that race
on one artifact with calls that fail or whose answers are lost.  `ArtifactBucket.Commit` is the
commit code of one uploader with arbitrary steps of others between its calls.  Code and race share
one definition of a call (`Allowed`, `After`): every execution of the code is a `Trail` of its own
calls and acts of others, what an uploader sees of any run is such a trail, and any number of steps
of others is one act.

**Interactions** (`Interactions`), **grants** (`Base64Url`, `Grants`) and **attachment names**
(`AttachmentNames`).

## Assumptions

- The event loop runs a coroutine without interruption between awaits.  Transactions are fused
  into one step only where the code relies on that; everywhere else a crash or another coroutine
  may come between.
- The database is persistent and a sandbox has at most one Worker container.  The sandbox table
  refuses an id that it holds; that an id does not come back after its workspace was deleted, and
  that generated workspace ids are new, is assumed.  With reused ids a late finish of the old
  sandbox would end the new one.
- Clocks do not run backwards.  Distinct contents have distinct SHA-256 digests (`Digest` is
  injective).  The keyed hash and the JSON writer and reader are parameters; that reading undoes
  writing is a hypothesis of the lemmas that need it.
- One upload per `upload_id` is under way at a time, and no artifact is deleted meanwhile.
- Tool call ids differ from the ids of agent messages, for the lifecycle of single items only; how
  streams end and what their text is holds for any ids.
- Publishing to subscribers does not raise, and no task is cancelled in the middle of a call.

## Results that differ from the intent

- A grant that was accepted is accepted again exactly when it still verifies, its expiry is reached
  before its nonce is consumed, because the Manager reads the clock twice, and no other live grant
  with the nonce was accepted in between (`SingleUse.SecondUse`; `SingleUse.AcceptedExactly` decides
  every attempt of every history).  `SingleUse.AcceptedTwiceAcrossExpiry` gives the two attempts for
  any grant; with one reading of the clock a grant is accepted at most once.
- The deltas of a stream add up to its final text if and only if no completed text replaced what had
  been streamed, or the last one to do so was what the deltas before it add up to
  (`ResponseText.TextReconstruction`).  `ResponseText.ReplacedTextIsNotStreamed` gives the runs of a
  draft and a final text that does not extend it.

- A numbered attachment name keeps the suffix of the name, except when the name ends in a dot, which
  only the cut to 160 characters can leave; then the number becomes a suffix
  (`AttachmentNames.CandidateKeepsSuffix`).
- A claim takes a remote-only workspace as well (`ManagerRestore.ClaimIsTaken`): the lock under which
  it was restored is given up before the claim, and an eviction may come between.

## Model

| member | source | states |
|---|---|---|
| ManagerTheorems.SingleWriterAlways | src/sandbox_manager/docker_backend.py:634-710 | in every world of every run, through crashes and failed creations: a Worker exists only for a live row that its workspace names, a workspace names one exactly while running, and no workspace has two Workers |
| ManagerTheorems.LateFinishIsHarmless | src/sandbox_manager/state.py:328-359 | over whole runs: once a workspace has been claimed, the end of any sandbox used before that claim, by terminate, by a failed creation or by reconciliation, however late, changes neither the workspace nor any other sandbox row nor any container |
| ManagerTheorems.WriterIsNewer | src/sandbox_manager/state.py:219-272 | after a claim the writer of a workspace is never a sandbox that was used before it |
| ManagerTheorems.HeadWasCommitted | src/sandbox_manager/state.py:426-484 | behind every head there is an earlier step of the run that committed this revision, for this workspace, at the recorded generation |
| ManagerTheorems.NoGenerationLost | src/sandbox_manager/docker_backend.py:904-985 | a workspace whose volume may be discarded (remote-only, restoring, or recoverable and clean or deleting) has a head committed at its current generation, or was never claimed |
| ManagerTheorems.CheckpointIsolation | src/sandbox_manager/docker_backend.py:763-815 | every commit has its start: an earlier step that moved this workspace to checkpointing for this operation at this generation; in every world in between there is no live row and no Worker of the workspace, and head, status and operation result change in one step |
| ManagerTheorems.SavingWasStarted | src/sandbox_manager/docker_backend.py:763-787 | behind every checkpoint coroutine there is the step that started it, with its number, workspace, operation and the generation the workspace had then |
| ManagerTheorems.SavingIsQuiet | src/sandbox_manager/state.py:395-424 | while a checkpoint coroutine exists its workspace has no writer and stays at the generation the coroutine read |
| ManagerTheorems.DirtyIsNeverReportedDone | src/sandbox_manager/docker_backend.py:357-404 | while a workspace is running, dirty or checkpointing, no operation under its current checkpoint key has succeeded |
| ManagerTheorems.CheckpointAlwaysStarts | src/sandbox_manager/docker_backend.py:763-787 | for a dirty workspace whose lock is free the checkpoint never returns early: it can always move to checkpointing |
| ManagerTheorems.ReleaseHappened | src/sandbox_manager/state.py:375-393 | a workspace counts as released only through a release step after which it was neither claimed nor recreated |
| ManagerTheorems.RetirementHonoursGrace | src/sandbox_manager/docker_backend.py:1240-1271 | a recoverable workspace enters deleting only by retirement, after a release that follows its last claim, and after the grace period |
| ManagerTheorems.ClaimCancelsRetirement | src/sandbox_manager/state.py:256-264 | after a claim no retirement starts until the workspace is released again |
| ManagerTheorems.CleanupCandidateIsSaved | src/sandbox_manager/state.py:486-507 | a workspace offered for local cleanup has a head that was committed at its current generation |
| ManagerTheorems.RetireCandidateIsReleased | src/sandbox_manager/state.py:509-530 | a workspace offered for retirement was released at least a grace period ago and not claimed since |
| ManagerTheorems.RunHistory | src/sandbox_manager/docker_backend.py:1240-1308 | the only steps that set a head, mark a release, start a deletion or give a workspace a writer are commit, release, retirement and a claim by an unused sandbox id |
| ManagerTheorems.TaskPersists | src/sandbox_manager/docker_backend.py:816-820 | coroutines keep workspace, generation and operation while they exist, and their numbers are not used again |
| ManagerStatus.RunRow | src/sandbox_manager/docker_backend.py:587-1308 | every step moves every workspace row exactly as one table says: status, generation and head after the step, from which status it may be moved, how rows come and go, and that every change is dated |
| ManagerRestore.FetchDecides | src/sandbox_manager/docker_backend.py:952-980 | the end of a fetch leaves the workspace clean if the runner succeeded and remote-only if not, with the fetched revision as its head and its generation unchanged |
| ManagerRestore.RestoringEnds | src/sandbox_manager/docker_backend.py:952-980 | a workspace leaves restoring only by the end of the fetch of its head, clean exactly if that succeeded, or by recovery, remote-only; head and generation stay |
| ManagerRestore.CleanWasFetched | src/sandbox_manager/docker_backend.py:929-966 | a workspace that was remote-only and is clean later, without a claim in between, had a successful fetch of its current head in between |
| ManagerRestore.EvictionHonoursRetention | src/sandbox_manager/docker_backend.py:1291-1308 | an eviction starts only when nothing has changed the row within the retention time |
| ManagerRestore.ClaimIsTaken | src/sandbox_manager/state.py:219-272 | a claim by a new sandbox is taken exactly for a workspace that is clean, dirty or remote-only |
| ManagerRestore.VolumesApart | src/sandbox_manager/state.py:181-206 | no two workspaces ever share a volume |
| ManagerRestore.HeadIsRecorded | src/sandbox_manager/state.py:426-484 | the head of a workspace is one of its own recorded revisions |
| ManagerRestore.CleanupCandidateExactly | src/sandbox_manager/state.py:486-507 | offered for eviction are exactly the recoverable workspaces without unfinished operations whose eviction may start |
| ManagerRestore.RetireCandidateExactly | src/sandbox_manager/state.py:509-530 | offered for retirement are exactly the recoverable ones without unfinished operations, released a grace period ago, in a status that can be retired |
| ManagerRestore.RetireCandidateMayStart | src/sandbox_manager/docker_backend.py:1240-1271 | whatever is offered for retirement can be retired at once, if its lock is free |
| ManagerBoxes.RunBox | src/sandbox_manager/state.py:219-359 | every step treats every sandbox row exactly as one table says |
| ManagerBoxes.LeaseWasGranted | src/sandbox_manager/docker_backend.py:716-728 | the expiry of a live sandbox is the one granted by its claim or by its latest renewal, which came while it ran |
| ManagerCare.LiveIsManaged | src/sandbox_manager/docker_backend.py:634-762 | while the Manager serves, every live sandbox has a record, by which it is terminated and reaped, or a coroutine that is creating or terminating it |
| ManagerCare.WorkerIsManaged | src/sandbox_manager/docker_backend.py:634-762 | so has every Worker container |
| ManagerOperations.RunOperation | src/sandbox_manager/state.py:569-657 | every step treats every operation row exactly as one table says: filed as pending, shows the last report, never changes otherwise |
| ManagerOperations.SucceededMeansSaved | src/sandbox_manager/docker_backend.py:763-815 | a checkpoint operation that has succeeded is for a generation that an earlier step of the run committed, or for a workspace that was never claimed |
| ManagerOperations.EphemeralCleanIsNew | src/sandbox_manager/docker_backend.py:587-600 | an ephemeral workspace that is clean has not been claimed yet |
| ManagerProgress.MarkGoesThrough | src/sandbox_manager/docker_backend.py:664-664 | in every reached world a started Worker can be marked running |
| ManagerProgress.FinishGoesThrough | src/sandbox_manager/docker_backend.py:1160-1173 | in every reached world a failed creation can be finished |
| ManagerProgress.CommitGoesThrough | src/sandbox_manager/state.py:426-484 | in every reached world a captured revision can be committed, unless another workspace owns its id |
| ManagerProgress.FetchGoesThrough | src/sandbox_manager/docker_backend.py:937-957 | in every reached world a coroutine that has read a head can start the restore of a remote-only workspace |
| ManagerProgress.RestoreGoesThrough | src/sandbox_manager/docker_backend.py:904-966 | in every reached world a remote-only workspace with a free lock can be prepared by a fetch of its head |
| ManagerProgress.RetireGoesThrough | src/sandbox_manager/docker_backend.py:1272-1285 | in every reached world a workspace that is being retired can be deleted, and then is gone |
| ManagerProgress.CreateIsAnswered | src/sandbox_manager/state.py:181-206 | created or found exactly with this kind and volume, a conflict exactly over a row that differs, an integrity error exactly over a volume in use |
| ManagerProgress.RenewalIsTaken | src/sandbox_manager/state.py:311-326 | a renewal is taken exactly for a sandbox that runs |
| ManagerProgress.ReleaseIsTaken | src/sandbox_manager/state.py:375-393 | a release is taken exactly for a recoverable workspace |
| ManagerProgress.DeletionIsTaken | src/sandbox_manager/state.py:361-373 | a deletion is refused exactly while the workspace runs; afterwards nothing refers to it |
| ManagerSteps.NextInv | src/sandbox_manager/docker_backend.py:587-1308 | every step of the protocol keeps the invariant over tables, containers, records and coroutines; a fetch carries the head of its workspace |
| ManagerSteps.RunInv | src/sandbox_manager/docker_backend.py:166-206 | the invariant holds in every world of every run |
| ManagerTransactions.ClaimInv | src/sandbox_manager/state.py:219-272 | a claim by an unused sandbox id keeps the invariant |
| ManagerTransactions.FinishInv | src/sandbox_manager/state.py:328-359 | finishing a sandbox whose container is gone keeps the invariant |
| ManagerTransactions.TransitionInv | src/sandbox_manager/state.py:395-424 | status transitions that the callers make keep the invariant |
| ManagerTransactions.CreateOperationInv | src/sandbox_manager/state.py:569-609 | filing an operation under the key of its request keeps the invariant |
| ManagerTransactions.UpdateOperationInv | src/sandbox_manager/state.py:622-657 | updating an operation keeps the invariant unless it reports a dirty generation as saved |
| ManagerTransactions.DeleteWorkspaceInv | src/sandbox_manager/state.py:361-373 | deleting a workspace without a writer keeps the invariant |
| ManagerStartup.Manager.Startup | src/sandbox_manager/docker_backend.py:166-206 | from any reached world, startup succeeds exactly when it can remove every operation container and every Worker that it does not adopt; then no operation container and no orphaned ephemeral workspace is left, no workspace is checkpointing or restoring, no operation is incomplete, and the records are those of the live rows, which are the healthy and unexpired Workers; heads and generations of recoverable workspaces are kept in any case |
| ManagerStartup.Manager.Reconcile | src/sandbox_manager/docker_backend.py:1049-1101 | whatever the order of the containers, succeeds exactly when no operation container and no rejected Worker resists removal; afterwards no operation container is left, and records, live rows and Worker containers name the same sandboxes: those that were healthy with an unexpired row |
| ManagerStartup.Manager.AdoptWorker | src/sandbox_manager/docker_backend.py:1076-1085 | a healthy, unexpired Worker gets its record, and its row is marked running if it was starting |
| ManagerStartup.Manager.FinishReconciled | src/sandbox_manager/docker_backend.py:1142-1158 | exactly this sandbox stops being live; an ephemeral workspace goes with it, a recoverable one keeps head and generation |
| ManagerStartup.Manager.DeleteOrphans | src/sandbox_manager/docker_backend.py:1134-1140 | no ephemeral workspace is left clean without a writer; no recoverable workspace and no live row is touched |
| ManagerStartup.Manager.FailOperations | src/sandbox_manager/docker_backend.py:1103-1117 | no pending or running operation is left: each has failed with its result kept, a publish that has its capture as captured, and no other operation is touched |
| ManagerStartup.Manager.RevertAll | src/sandbox_manager/docker_backend.py:1118-1132 | no workspace is left in the interrupted status, and operations and live rows are untouched |
| ManagerStartup.RecoveredWorkspace | src/sandbox_manager/docker_backend.py:1103-1132 | after recovery an interrupted checkpoint is dirty, never clean; an interrupted restore is remote-only; a running workspace is dirty or has an adopted Worker; every other status is unchanged |
| StateStores.StateStore.CreateWorkspace | src/sandbox_manager/state.py:181-206 | a new row, the existing one, or a conflict over kind or volume; nothing else changes |
| StateStores.StateStore.GetWorkspace | src/sandbox_manager/state.py:208-217 | the row, or not found |
| StateStores.StateStore.ClaimWorkspace | src/sandbox_manager/state.py:219-272 | refused for another writer, an unmountable status or a used id; otherwise one new starting row, generation plus one, deletion unscheduled |
| StateStores.StateStore.MarkSandboxRunning | src/sandbox_manager/state.py:274-289 | only a starting row becomes running; every workspace naming it is touched |
| StateStores.StateStore.RenewSandbox | src/sandbox_manager/state.py:311-326 | only a live row gets a new expiry |
| StateStores.StateStore.FinishSandbox | src/sandbox_manager/state.py:328-359 | the row ends; its workspace changes only if it still names this sandbox |
| StateStores.StateStore.DeleteWorkspace | src/sandbox_manager/state.py:361-373 | refused while there is a writer; otherwise rows of the workspace go with it |
| StateStores.StateStore.ScheduleWorkspaceDelete | src/sandbox_manager/state.py:375-393 | the deletion time is set, or not found |
| StateStores.StateStore.TransitionWorkspace | src/sandbox_manager/state.py:395-424 | the status changes only from an expected one and without a writer |
| StateStores.StateStore.CommitRevision | src/sandbox_manager/state.py:426-484 | revision, head, status and operation result change together, only from checkpointing at this generation |
| StateStores.StateStore.CreateOperation | src/sandbox_manager/state.py:569-609 | an operation with this key is returned as it is; otherwise a pending one is filed |
| StateStores.StateStore.UpdateOperation | src/sandbox_manager/state.py:622-657 | the operation takes the reported fields, or not found |
| StateStores.StateStore.ConsumeNonce | src/sandbox_manager/state.py:556-567 | expired nonces go; this one is accepted only if it is not on record |
| OperationKeys.CheckpointKeyInjective | src/sandbox_manager/docker_backend.py:365 | one checkpoint key never names two pairs of workspace and generation, whatever the ids contain |
| OperationKeys.CheckpointKeyDistinct | src/sandbox_manager/docker_backend.py:377 | no restore, retire, checkout or publish key is a checkpoint key |
| Decimal.RenderInjective | src/sandbox_manager/docker_backend.py:777 | different numbers have different decimal texts |
| EventLogs.EventLog.Publish | src/sandbox_worker/event_log.py:22-28 | ids are consecutive, and the log holds exactly the last `capacity` events |
| EventLogs.EventLog.LastEventId | src/sandbox_worker/event_log.py:18-20 | the id of the newest event ever published, evicted or not |
| EventLogs.EventLog.Read | src/sandbox_worker/event_log.py:35-51 | an event is in the result if and only if it is above the cursor and still retained; the ids increase |
| EventLogs.ReadIsExact | src/sandbox_worker/event_log.py:50 | an event is read if and only if its id is above the cursor and it is among the last `capacity` published, each once, in the order of ids |
| EventDelivery.HandledExactlyOnce | src/codex_responses_adapter/service.py:532-576 | through evictions, broken connections and reconnects, the handled notifications are those of one contiguous run of the log from the initial cursor, none skipped, none twice |
| EventDelivery.GapReportedExactlyWhenLost | src/codex_responses_adapter/service.py:539-542 | a gap is reported if and only if the next unread event was evicted before this connection could read it |
| EventDelivery.LostForGood | src/codex_responses_adapter/service.py:539-542 | once the next event is lost, the cursor never moves and nothing more is handled |
| EventDelivery.NextInv | src/sandbox_worker/app.py:77-94 | what is in flight on a connection continues the cursor with log events in order, over evicted ones only |
| EventDelivery.UnreadContinues | src/sandbox_worker/event_log.py:41-51 | a read continues the stream at its position, skipping only evicted events |
| EventDelivery.FetchReachesNewest | src/sandbox_worker/app.py:77-94 | a fetch brings the connection up to the newest event |
| EventDelivery.DrainedIsCurrent | src/codex_responses_adapter/service.py:532-561 | a connection that has fetched and is drained has brought the cursor to the newest event of the fetch; if nothing was published since, every notification there is has been handled |
| EventDelivery.StopIsStep | src/codex_responses_adapter/service.py:536-561 | the driver's code stops exactly where a delivery of the protocol ends the run, reports a gap or gives up the stream, and otherwise moves the cursor with it |
| EventDelivery.StopMeans | src/codex_responses_adapter/service.py:536-551 | a lost lease counts before a gap, a gap before the event itself; with none of them the event is taken |
| EventDelivery.Driver.Drain | src/codex_responses_adapter/service.py:534-561 | takes events up to the first that meets a lost lease, a gap, a failed session or an unanswerable request, or that ends the turn, and says which; it goes on with another stream only after the end of this one or an unanswerable request; the builder gets the notifications of this execution and the cursor stays at the last event taken |
| EventDelivery.GivenAreOwn | src/codex_responses_adapter/service.py:553-556 | the builder is given exactly the taken notifications that belong to this execution |
| EventDelivery.AcceptedIsContiguous | src/codex_responses_adapter/service.py:534-556 | on anything a connection can deliver, what that loop takes is a contiguous run of the log |
| ResponseLifecycle.ItemLifecycle | src/codex_responses_adapter/events.py:108-164 | under any order and duplication of notifications: at most one added and one done per item, and every other event of the item after the one and before the other |
| ResponseLifecycle.PhaseMeaning | src/codex_responses_adapter/events.py:108-164 | the phase automaton counts added and done events and orders all others between them |
| ResponseLifecycle.ConsumeSound | src/codex_responses_adapter/events.py:29-73 | every notification moves each item's phase as the record says |
| ResponseTheorems.TurnCompletesItsCalls | src/codex_responses_adapter/events.py:302-317 | the first `turn/completed` leaves every listed call with exactly one done event |
| ResponseCalls.CallStory | src/codex_responses_adapter/events.py:108-202 | all events about a call, and its item in the record, as a function of the notifications: added, arguments and in progress as the first mention says, outcome and done as the first completion says, all at one position |
| ResponseCalls.OutcomeIsTold | src/codex_responses_adapter/events.py:149-163 | a failure is announced if and only if the first completion carries one, a success if and only if it carries none, and the item shows the same status |
| ResponseMessage.MessageStory | src/codex_responses_adapter/events.py:264-300 | all events about the message as a function of the notifications: it starts with the first input that speaks, under its id; added empty, opened, deltas, and at the end text, part and item done with all that was said |
| ResponseMessage.TextIsSpoken | src/codex_responses_adapter/events.py:264-300 | the text is what was said: deltas in addition, a completed text that is not empty instead |
| ResponseMessage.LastMessageMeans | src/codex_responses_adapter/events.py:458-471 | the final message of a turn is its last agent message entry |
| ResponseTheorems.PositionsHold | src/codex_responses_adapter/models.py:109-145 | the position in an event is the only one at which any later response lists that item; a done item is finished and stands there unchanged |
| ResponseTheorems.RetrievalChangesNothing | src/codex_responses_adapter/models.py:173-204 | taking a response at any time leaves the record as it is |
| ResponseEnding.OneTerminalEvent | src/codex_responses_adapter/events.py:302-358 | for any notifications: a stream that has ended has exactly one terminal event, its last, which shows the final record; before that there is none |
| ResponseEnding.OutcomeIsReported | src/codex_responses_adapter/events.py:75-106 | the terminal event is completed, incomplete or failed, with an error exactly if failed and a reason only if incomplete; until then a response shows no outcome |
| ResponseEnding.TurnSetsOutcome | src/codex_responses_adapter/events.py:317-357 | a turn's status decides the outcome and its usage is recorded, whatever its calls and texts did before |
| ResponseEnding.EndsExactly | src/codex_responses_adapter/events.py:29-106 | a stream has ended if and only if a turn end, an error without retry or a stop of the driver has arrived |
| ResponseEnding.EndIsAnnounced | src/codex_responses_adapter/events.py:75-106 | the last event of a stream has the status, error, reason and usage of the input that ended it |
| ResponseEnding.StreamBegins | src/codex_responses_adapter/events.py:23-27 | a stream begins with the empty response, created and then in progress, and never does so again |
| ResponseTheorems.RunKeeps | src/codex_responses_adapter/models.py:109-120 | between any two moments positions stay, and so do items that are done |
| ResponseInvariant.AddItemValid | src/codex_responses_adapter/models.py:109-120 | items and index map stay inverse to each other, and the item stands at the returned index |
| ResponseInvariant.RunValid | src/codex_responses_adapter/models.py:109-145 | at every moment of every stream items and index map are inverse to each other, and the message once started stands at its index |
| ResponseText.TextReconstruction | src/codex_responses_adapter/events.py:264-300 | over any run, the deltas add up to the text, and to every text reported as done, if and only if no completed text replaced the streamed one or the last that did equals the deltas before it |
| ResponseText.AgreementStep | src/codex_responses_adapter/events.py:280-300 | from any state, after one more input deltas and text agree exactly if they agreed before a text that follows, or the deltas so far are the text that replaces |
| ResponseText.ExtendingTextsReconstruct | src/codex_responses_adapter/events.py:289-296 | when every completed text extends what was streamed, the deltas add up to every text reported as done |
| ResponseText.ReplacedTextIsNotStreamed | src/codex_responses_adapter/events.py:297-299 | for any draft and any final text that does not extend it, the deltas are the draft and the text is the final one |
| ResponseText.DoneTextIsFinal | src/codex_responses_adapter/events.py:379-409 | any text reported as done is the record's text at the end, and none is reported before the end |
| ResponseText.FinalMessageIsReported | src/codex_responses_adapter/events.py:313-317 | a turn with a non-empty final agent message reports exactly that text as done |
| ResponseBuilders.ResponseRecord.AddOutputItem | src/codex_responses_adapter/models.py:109-120 | replaces in place or appends, as the specification function |
| ResponseBuilders.ResponseRecord.EnsureMessage | src/codex_responses_adapter/models.py:134-141 | starts the message once and returns its index |
| ResponseBuilders.ResponseRecord.ToResponse | src/codex_responses_adapter/models.py:173-204 | a snapshot of the record with only the reasons that the API knows |
| ResponseBuilders.ResponsesEventBuilder.InitialEvents | src/codex_responses_adapter/events.py:23-27 | created and in-progress snapshots under the next two numbers |
| ResponseBuilders.ResponsesEventBuilder.StartMcpCall | src/codex_responses_adapter/events.py:108-135 | state, events and consecutive numbers of the specification |
| ResponseBuilders.ResponsesEventBuilder.CompleteMcpCall | src/codex_responses_adapter/events.py:137-164 | state, events and consecutive numbers of the specification |
| ResponseBuilders.ResponsesEventBuilder.StartMessageItem | src/codex_responses_adapter/events.py:359-377 | state, events and consecutive numbers of the specification |
| ResponseBuilders.ResponsesEventBuilder.AppendMessageText | src/codex_responses_adapter/events.py:264-278 | state, events and consecutive numbers of the specification |
| ResponseBuilders.ResponsesEventBuilder.SyncCompletedMessage | src/codex_responses_adapter/events.py:280-300 | state, events and consecutive numbers of the specification |
| ResponseBuilders.ResponsesEventBuilder.FinishMessageItem | src/codex_responses_adapter/events.py:379-409 | state, events and consecutive numbers of the specification |
| ResponseBuilders.ResponsesEventBuilder.FailWith | src/codex_responses_adapter/events.py:75-91 | state, events and consecutive numbers of the specification; nothing once terminal |
| ResponseBuilders.ResponsesEventBuilder.StopWith | src/codex_responses_adapter/events.py:93-106 | state, events and consecutive numbers of the specification; nothing once terminal |
| ResponseBuilders.ResponsesEventBuilder.CompleteTurnWith | src/codex_responses_adapter/events.py:302-358 | the loop over listed calls, the final text and the outcome, as the specification |
| ResponseBuilders.ResponsesEventBuilder.ConsumeNotification | src/codex_responses_adapter/events.py:29-73 | state, events and consecutive numbers of the specification for every notification |
| ResponseBuilders.FindLastMessage | src/codex_responses_adapter/events.py:458-471 | the backward search finds the last agent message |
| ResponseBuilders.DriveAll | src/codex_responses_adapter/service.py:530-600 | a fresh builder driven to its end sends exactly the specified stream, numbered 0, 1, 2, ... |
| Subscribers.ActiveExecution.Subscribe | src/codex_responses_adapter/store.py:35-42 | an empty attached queue, or just an end marker after the end |
| Subscribers.ActiveExecution.Unsubscribe | src/codex_responses_adapter/store.py:44-46 | detaches this queue and no other |
| Subscribers.ActiveExecution.PublishEvents | src/codex_responses_adapter/store.py:48-55 | every attached queue, and no other, receives the events in order |
| Subscribers.ActiveExecution.FinishAll | src/codex_responses_adapter/store.py:57-63 | every attached queue receives one end marker and is detached |
| SubscriberStream.CreatorSeesEverything | src/codex_responses_adapter/service.py:457-464 | while the response is produced the creator's queue holds the builder's whole stream, numbered from 0, whatever others do |
| SubscriberStream.CreatorStreamIsComplete | src/codex_responses_adapter/service.py:879-893 | for any notifications: after the end it holds the whole stream, whose last event and no other is terminal, then one end marker, and never anything more |
| SubscriberStream.OthersSeeASuffix | src/codex_responses_adapter/store.py:35-55 | every other attached subscriber has received exactly what was published since it joined |
| SubscriberStream.QueueStory | src/codex_responses_adapter/store.py:35-63 | any queue holds exactly what was published while it was attached, and ends with an end marker exactly if the response is closed and it was not detached before; one that joins after the end holds the marker alone |
| SubscriberStream.HistoryStays | src/codex_responses_adapter/store.py:44-46 | a detached queue never receives anything more |
| ArtifactUpload.Staging.Stage | src/artifact_service/store.py:82-155 | the staging object is the whole body or absent, with the parts its blocks on success; after an error it is there only if the last call was carried out and its answer lost, and the multipart upload stays open only if aborting it fails; without faults the body is accepted if and only if it is within the limit and has the expected digest |
| ArtifactUpload.Staging.SendBody | src/artifact_service/store.py:98-121 | for any chunking: too large only above the limit, a mismatch only for another digest |
| ArtifactUpload.Staging.SendFullParts | src/artifact_service/store.py:107-112 | full parts, numbered on, are cut off the buffer and nothing is lost |
| ArtifactUpload.PartCount | src/artifact_service/settings.py:15 | the number of parts is the size over 8 MiB rounded up, at most 1280 at the 10 GiB limit |
| ArtifactUpload.BlocksUnique | src/artifact_service/store.py:17 | the parts depend on the body alone, not on the chunks it came in |
| ArtifactCommit.ManifestIsForever | src/artifact_service/store.py:272-281 | a manifest once written never changes |
| ArtifactCommit.CommittedContentIsPresent | src/artifact_service/store.py:264-305 | in every world a manifest has its content object, of the recorded size and digest, which is the body of an uploader whose expectation it met; losers never remove it |
| ArtifactCommit.SuccessesAgree | src/artifact_service/store.py:78-81 | all successful uploads, whenever they end, return the one committed descriptor, and it fits each request |
| ArtifactCommit.ConflictsAreReal | src/artifact_service/store.py:78-81 | a conflict is answered only over a manifest that differs from what was asked for or sent, and no upload ends in a missing manifest |
| ArtifactCommit.NothingLeftBehind | src/artifact_service/store.py:295-304 | if no answer is lost and no cleaning up fails, then once all uploads have ended there is no staging object and no content object but the manifest's |
| ArtifactCommit.StepRely | src/artifact_service/store.py:253-307 | no step of one uploader disturbs what another has staged, copied or seen |
| ArtifactCommit.RunIsTrail | src/artifact_service/store.py:253-307 | what one uploader sees of any run while it commits is a trail of its own calls and of acts that respect what it relies on |
| ArtifactCommit.ActIsStep | src/artifact_service/store.py:253-307 | any call that the commit code may make is a step of the race, whatever the other uploaders are doing |
| ArtifactCommit.OthersAreOneAct | src/artifact_service/store.py:253-307 | any number of steps of others in a row respects what an uploader relies on |
| ArtifactCommit.NextInv | src/artifact_service/store.py:253-307 | every step, also with lost answers and failed deletions, keeps the invariant |
| ArtifactCommit.ArtifactBucket.Commit | src/artifact_service/store.py:253-307 | with arbitrary steps of others in between, and failing calls and lookups, the execution is a trail from entering the commit to its answer: a success is the manifest and fits, a conflict is over a manifest that differs, an error has a failed call behind it; the manifest keeps its content |
| ArtifactCommit.ArtifactBucket.PutIfAbsent | src/artifact_service/store.py:274-287 | writes only where there is no manifest; a lost answer may hide a write |
| Interactions.FirstDecisionWins | src/codex_responses_adapter/mcp_apps.py:289-327 | once an interaction is decided, its status, result and future never change |
| Interactions.FutureHoldsTheResult | src/codex_responses_adapter/mcp_apps.py:303-311 | the future is done exactly when the interaction is not pending, and holds the recorded result |
| Interactions.ToolGetsTheDecision | src/codex_responses_adapter/service.py:705-722 | the answer returned to the tool is the recorded decision, also when its timeout races a resolve; it fails only after a deletion |
| Interactions.DecisionWasTaken | src/codex_responses_adapter/mcp_apps.py:289-340 | behind every decision there is the step that took it while the interaction was listed and pending: a resolution with the action, meta and, for an acceptance, content of its request, or an expiry or end of its response, which cancel |
| Interactions.ToolAnswerWasDecided | src/codex_responses_adapter/service.py:705-722 | what a tool call returns is what such a step decided |
| Interactions.ResolveIsTaken | src/codex_responses_adapter/mcp_apps.py:289-313 | in every reached world a resolve is taken exactly while the interaction is listed and pending, and records what the request says |
| Interactions.ExpireIsTaken | src/codex_responses_adapter/mcp_apps.py:315-327 | an expiry cancels what is pending and otherwise shows the decision it finds |
| Interactions.ListedUntilDeleted | src/codex_responses_adapter/mcp_apps.py:241-256 | an interaction stays listed until exactly its response is deleted |
| Interactions.NonePendingAfterwards | src/codex_responses_adapter/mcp_apps.py:241-256 | cancelling or deleting a response leaves none of its interactions pending, so every waiter is released |
| Interactions.McpAppsState.CreateInteraction | src/codex_responses_adapter/mcp_apps.py:258-280 | a pending interaction, listed under its response |
| Interactions.McpAppsState.ResolveInteraction | src/codex_responses_adapter/mcp_apps.py:289-313 | not found, already resolved, or resolved with content kept for an acceptance only |
| Interactions.McpAppsState.ExpireInteraction | src/codex_responses_adapter/mcp_apps.py:315-327 | a pending interaction is cancelled as expired, a decided one is returned as it is |
| Interactions.McpAppsState.CancelResponseInteractions | src/codex_responses_adapter/mcp_apps.py:329-340 | exactly the pending ones of this response are cancelled |
| Interactions.McpAppsState.DeleteResponseState | src/codex_responses_adapter/mcp_apps.py:241-256 | the interactions of this response are decided and unlisted, and no others |
| Base64Url.RoundTrip | src/sandbox_api/grants.py:87-92 | decoding what was encoded gives the bytes back, for every byte string (section 5 of RFC 4648, padding restored by length) |
| Base64Url.EncodeShape | src/sandbox_api/grants.py:87-88 | the encoded text has no separator and no padding, and its length determines the padding |
| Base64Url.EncodeInjective | src/sandbox_api/grants.py:87-88 | distinct byte strings have distinct texts |
| Base64Url.ScanPadded | src/sandbox_api/grants.py:91-92 | the lenient reader recovers the bytes behind any padded text, after whatever it has read |
| Grants.VerifySigned | src/sandbox_api/grants.py:42-84 | a signed payload reaches the checks unchanged: verification is exactly the checks on its claims |
| Grants.AcceptedIsSigned | src/sandbox_api/grants.py:42-84 | any token is accepted, with certain claims, if and only if it is not too long, what follows its first dot decodes to the keyed hash of what precedes it, that decodes to the text of the claims, and the claims pass the checks |
| Grants.NoSeparatorNoGrant | src/sandbox_api/grants.py:52-57 | a token without a dot is refused |
| Grants.ForgedIsRefused | src/sandbox_api/grants.py:58-60 | a payload with any other signature is refused |
| Grants.OtherSecretIsRefused | src/sandbox_api/grants.py:58-60 | a grant signed with another secret is refused unless the two hashes collide on it |
| Grants.CheckMeans | src/sandbox_api/grants.py:68-84 | what accepted claims say, and for each refusal its cause |
| SingleUse.GenuineIsBound | src/sandbox_manager/docker_backend.py:1335-1353 | a genuine grant is signed for this manager and names the issuer, operation and workspace asked for |
| SingleUse.ForeignGrantSpendsNothing | src/sandbox_manager/docker_backend.py:1350-1358 | a grant of another issuer or for another workspace is refused and spends no nonce; any other that verifies is genuine |
| Grants.GrantWindow | src/sandbox_api/grants.py:16-84 | issued at n for d seconds, a grant verifies at t exactly when n-30 <= t < n+d, 0 < d <= the allowed lifetime, audience and operation match and the token is within the limit |
| Grants.PayloadWindow | src/sandbox_api/grants.py:60-84 | the checks pass on an issued payload exactly in its window and within its limits |
| Grants.VerifiedPayload | src/sandbox_api/grants.py:68-84 | an accepted token yields the same claims at any other time at which it is current |
| SingleUse.SecondUse | src/sandbox_manager/docker_backend.py:1335-1358 | in any history, a grant that was accepted is accepted again if and only if it verifies before its expiry, its nonce is consumed at or after it, and no live grant with the nonce was accepted meanwhile |
| SingleUse.AcceptedExactly | src/sandbox_manager/docker_backend.py:1335-1358 | in any history, an attempt is accepted exactly when its grant is genuine and no grant with its nonce that is alive at the consumption was accepted before |
| SingleUse.RecordIsExact | src/sandbox_manager/state.py:556-567 | for all its purges, the table has a nonce on record exactly while a grant that spent it lives |
| SingleUse.SingleUseOfGrants | src/sandbox_manager/state.py:556-567 | among any other attempts, with one reading of the clock for the later request, a grant is accepted at most once over its whole life |
| SingleUse.AcceptedTwiceAcrossExpiry | src/sandbox_manager/docker_backend.py:1341-1357 | two requests whose clock readings straddle the expiry are both accepted |
| AttachmentNames.UniqueName | deploy/open-webui/agent_open_webui/workspace.py:857-866 | terminates for every finite set and returns the first candidate that is not in use, within one more attempt than there are names in use |
| AttachmentNames.TriedFit | deploy/open-webui/agent_open_webui/workspace.py:862-864 | the first n candidates cannot all be in use unless n names are in use |
| AttachmentNames.CandidatesDiffer | deploy/open-webui/agent_open_webui/workspace.py:859-864 | no two candidates for one name are equal |
| AttachmentNames.CheckoutNames | deploy/open-webui/agent_open_webui/workspace.py:363-400 | each file of a batch once, under its sanitised name or the first candidate free of those before it, all distinct and safe; or the refusal of the first file that is unreadable or too large |
| AttachmentNames.SanitisedIsSafe | deploy/open-webui/agent_open_webui/workspace.py:851-854 | a sanitised name is one path component of at most 160 safe characters, and not empty |
| AttachmentNames.SanitisedKeeps | deploy/open-webui/agent_open_webui/workspace.py:851-854 | a name of at most 160 characters is kept if and only if it is safe and ends in nothing that is stripped |
| AttachmentNames.CandidateIsSafe | deploy/open-webui/agent_open_webui/workspace.py:857-866 | numbering a safe name keeps it safe |
| AttachmentNames.SuffixOf | deploy/open-webui/agent_open_webui/workspace.py:859-860 | the suffix of a name is what its last dot begins, unless nothing precedes or follows that dot |
| AttachmentNames.CandidateKeepsSuffix | deploy/open-webui/agent_open_webui/workspace.py:857-864 | a numbered candidate keeps the suffix of the name if and only if the name does not end in a dot (or is just one) |
| AttachmentNames.AssignedDistinct | deploy/open-webui/agent_open_webui/workspace.py:857-866 | names given one after the other to any wanted names are pairwise distinct |

## Left out

- HTTP routes, settings, command lines, container specifications, network policy and the user interface: plumbing around the modelled parts.
- Docker, S3, restic and the Codex app-server are atomic steps that succeed, fail or, for the artifact store, succeed with a lost answer; their insides are not modelled.
- What a volume holds: the Manager's theorems are about generations and heads, not about whether a running volume holds the head (a claim accepts a remote-only workspace, and the lock is given up before the claim).
- File checkouts into a volume and the artifact binding of publish operations: checkout, publish, restore and retire operations only appear as rows that may be filed and updated in any order.
- ManagerProtocol.Claim: assumes that a sandbox id is not claimed again after its row was deleted; the table itself only refuses ids that it holds.
- ManagerStartup.Manager.Startup: the volumes that startup also removes are not modelled, nor is what Docker reports between two of its calls; Workers without a row do not arise in the protocol.
- EventDelivery.HandledExactlyOnce: covers notifications; a server request whose answer cannot be delivered is seen again after a reconnect, as the code intends. In the runs the deadline and the lease are the step that ends the driver.
- ResponseBuilders.DriveAll: reconnects, lease and deadline are reduced to the inputs that they lead to.
- ResponseTranslation.CallItemOf: the metadata that an MCP App adds to an item (its `_meta`) and JSON rendering of arguments and results are not modelled; both are strings here.
- ResponseLifecycle.ItemLifecycle: requires that tool calls and agent messages do not share ids; the code keeps one index for both.
- ResponseTheorems.PositionsHold: with MCP Apps enabled, `_bind_app_session` writes an event's item back into the record between translating and publishing (src/codex_responses_adapter/service.py:815-835), so that a call first seen when it is completed is briefly shown in its in-progress form; the record here is what translation makes of it.
- Interactions.McpAppsState.DeleteResponseState: the side events, their sequence numbers and eviction, and the sessions of MCP Apps, which go with the response, are not modelled.
- ArtifactCommit.SuccessesAgree: deleting an artifact, and two simultaneous uploads under one upload id, are outside the race.
- ArtifactUpload.Staging.Stage: creating the multipart upload and its entity tags are not modelled.
- Interactions.McpAppsState: interactions are values in a map that the methods reassign, so references that outlive a deletion are represented by keeping every interaction ever made.
- Grants.Verify: tokens are sequences of characters without surrogates, and the secret is passed to the keyed hash as it is.
- AttachmentNames.CheckoutNames: access rights and sizes are given; requests for download targets are left out.
- Liveness: that operations finish and that the reaper comes around in time.
