/**
  The Sandbox Manager as a transition system.

  A `World` holds the database, the Worker containers that exist, the in-memory records and
  the coroutines that are suspended at an await.  Every SQLite transaction and every Docker
  call that matters here is one step, so a crash can fall between any two of them.  The event
  loop runs a coroutine without interruption from one await to the next; transactions are
  fused into one step only where the code relies on that.
 */
module ManagerProtocol {
  import opened Prelude
  import opened StateTables
  import opened OperationKeys

  datatype Record = Record(workspaceId: string, recoverable: bool)

  /** `create` after its claim: no container yet, container created, row marked, container gone. */
  datatype CreatePhase = Claimed | Started | Marked | Gone

  /** `terminate`: about to remove the container, container removed, record popped. */
  datatype TerminatePhase = Removing | Removed | Popped

  datatype Task =
    | Creating(sandboxId: string, workspaceId: string, creation: CreatePhase)
    | Terminating(sandboxId: string, workspaceId: string, recoverable: bool, phase: TerminatePhase)
    | Saving(workspaceId: string, generation: nat, operationId: string, failing: bool)
    | Preparing(workspaceId: string, head: Option<string>)
    | Fetching(workspaceId: string, revision: string)
    | Evicting(workspaceId: string)
    | Retiring(workspaceId: string)

  /** `Booting` lasts from a crash until `startup` has reconciled and recovered. */
  datatype Mode = Booting | Serving

  datatype World = World(
    db: Tables,
    containers: map<string, string>,   // sandbox id to the workspace label of its Worker
    records: map<string, Record>,
    tasks: map<nat, Task>,
    nextTask: nat,
    clock: int,
    mode: Mode,
    grace: nat,                        // workspace_delete_grace_seconds
    retention: nat,                    // workspace_local_retention_seconds
    // History that the code does not keep.
    headGeneration: map<string, nat>,  // generation at which the head was committed
    releasedAt: map<string, int>,      // last release, forgotten at the next claim
    minted: set<string>,               // ids generated for ephemeral workspaces
    known: set<string>,                // workspace ids that ever existed
    usedSandboxes: set<string>)        // sandbox ids that ever were claimed

  /** The coroutines that run inside `async with lock` of one workspace. */
  predicate HoldsLock(task: Task, w: string) {
    !task.Creating? && !task.Terminating? && task.workspaceId == w
  }

  predicate LockFree(s: World, w: string) {
    forall t :: t in s.tasks ==> !HoldsLock(s.tasks[t], w)
  }

  function AddTask(s: World, task: Task): World {
    s.(tasks := s.tasks[s.nextTask := task], nextTask := s.nextTask + 1)
  }

  function SetTask(s: World, t: nat, task: Task): World {
    s.(tasks := s.tasks[t := task])
  }

  function EndTask(s: World, t: nat): World {
    s.(tasks := s.tasks - {t})
  }

  /** The status `finish_sandbox` gives the workspace: dirty if recoverable, else deleting. */
  function FinishedStatus(recoverable: bool): WorkspaceStatus {
    if recoverable then DetachedDirty else Deleting
  }

  predicate Init(s: World) {
    && s.db == EMPTY
    && s.containers == map[] && s.records == map[] && s.tasks == map[]
    && s.mode == Serving
    && s.headGeneration == map[] && s.releasedAt == map[]
    && s.minted == {} && s.known == {} && s.usedSandboxes == {}
  }

  // ---------------------------------------------------------------- workspaces come and go

  predicate Tick(s: World, s': World, seconds: nat) {
    s' == s.(clock := s.clock + seconds)
  }

  /** `create_workspace`; a caller never guesses an id the Manager mints with uuid4. */
  predicate CreateRecoverable(s: World, s': World, w: string, volume: string) {
    var r := CreateWorkspaceTx(s.db, w, Recoverable, volume, s.clock);
    && s.mode == Serving && w !in s.minted && r.Ok?
    && s' == s.(db := r.value, known := s.known + {w})
  }

  /** The ephemeral branch of `create`. */
  predicate MintEphemeral(s: World, s': World, w: string, volume: string) {
    var r := CreateWorkspaceTx(s.db, w, Ephemeral, volume, s.clock);
    && s.mode == Serving && w !in s.known && r.Ok?
    && s' == s.(db := r.value, known := s.known + {w}, minted := s.minted + {w})
  }

  /** Every path that ends an ephemeral workspace ends in `delete_workspace`. */
  predicate DeleteEphemeral(s: World, s': World, w: string) {
    var r := DeleteWorkspaceTx(s.db, w);
    && w in s.minted && r.Ok?
    && s' == Forget(s, w).(db := r.value)
  }

  function Forget(s: World, w: string): World {
    s.(headGeneration := s.headGeneration - {w}, releasedAt := s.releasedAt - {w})
  }

  predicate Release(s: World, s': World, w: string) {
    var r := ScheduleDeleteTx(s.db, w, s.clock + s.grace, s.clock);
    && s.mode == Serving && r.Ok?
    && s' == s.(db := r.value, releasedAt := s.releasedAt[w := s.clock])
  }

  // ---------------------------------------------------------------- create

  /**
    `claim_workspace`.  The table refuses a sandbox id that it still holds; that an id does not
    come back after its row was deleted is an assumption (ids are random, or chosen once by the
    issuer of the grant).
   */
  predicate Claim(s: World, s': World, w: string, sandboxId: string, host: string, ttl: int) {
    var r := ClaimTx(s.db, w, sandboxId, host, host, s.clock, s.clock + ttl);
    && s.mode == Serving && sandboxId !in s.usedSandboxes && r.Ok?
    && s' == AddTask(s, Creating(sandboxId, w, Claimed))
             .(db := r.value, usedSandboxes := s.usedSandboxes + {sandboxId},
               releasedAt := s.releasedAt - {w})
  }

  predicate IsCreating(s: World, t: nat) {
    t in s.tasks && s.tasks[t].Creating?
  }

  predicate CreateContainer(s: World, s': World, t: nat) {
    && IsCreating(s, t) && s.tasks[t].creation == Claimed
    && s' == SetTask(s, t, s.tasks[t].(creation := Started))
             .(containers := s.containers[s.tasks[t].sandboxId := s.tasks[t].workspaceId])
  }

  predicate MarkRunning(s: World, s': World, t: nat) {
    && IsCreating(s, t) && s.tasks[t].creation == Started
    && var r := MarkRunningTx(s.db, s.tasks[t].sandboxId, s.clock);
    && r.Ok?
    && s' == SetTask(s, t, s.tasks[t].(creation := Marked)).(db := r.value)
  }

  function RecordOf(s: World, w: string): Record {
    Record(w, w !in s.minted)
  }

  /** Creation succeeded, or it failed and the Worker could not be removed: keep a record. */
  predicate KeepRecord(s: World, s': World, t: nat) {
    && IsCreating(s, t) && s.tasks[t].creation in {Started, Marked}
    && s' == EndTask(s, t).(records :=
         s.records[s.tasks[t].sandboxId := RecordOf(s, s.tasks[t].workspaceId)])
  }

  /** Creation failed before its container existed, or the container was removed again. */
  predicate AbandonContainer(s: World, s': World, t: nat) {
    && IsCreating(s, t) && s.tasks[t].creation != Gone
    && s' == SetTask(s, t, s.tasks[t].(creation := Gone))
             .(containers := s.containers - {s.tasks[t].sandboxId})
  }

  predicate FinishFailedCreation(s: World, s': World, t: nat) {
    && IsCreating(s, t) && s.tasks[t].creation == Gone
    && var r := FinishTx(s.db, s.tasks[t].sandboxId, SandboxStatus.Failed,
                         FinishedStatus(s.tasks[t].workspaceId !in s.minted), s.clock);
    && r.Ok?
    && s' == EndTask(s, t).(db := r.value)
  }

  // ---------------------------------------------------------------- terminate and renew

  predicate TerminateStart(s: World, s': World, sandboxId: string) {
    && s.mode == Serving && sandboxId in s.records
    && s' == AddTask(s, Terminating(sandboxId, s.records[sandboxId].workspaceId,
                                    s.records[sandboxId].recoverable, Removing))
  }

  predicate IsTerminating(s: World, t: nat, phase: TerminatePhase) {
    t in s.tasks && s.tasks[t].Terminating? && s.tasks[t].phase == phase
  }

  predicate TerminateRemove(s: World, s': World, t: nat) {
    && IsTerminating(s, t, Removing)
    && s' == SetTask(s, t, s.tasks[t].(phase := Removed))
             .(containers := s.containers - {s.tasks[t].sandboxId})
  }

  predicate TerminatePop(s: World, s': World, t: nat) {
    && IsTerminating(s, t, Removed)
    && s' == SetTask(s, t, s.tasks[t].(phase := Popped))
             .(records := s.records - {s.tasks[t].sandboxId})
  }

  /** A missing sandbox row is suppressed. */
  predicate TerminateFinish(s: World, s': World, t: nat) {
    && IsTerminating(s, t, Popped)
    && var r := FinishTx(s.db, s.tasks[t].sandboxId, Terminated,
                         FinishedStatus(s.tasks[t].recoverable), s.clock);
    && s' == EndTask(s, t).(db := if r.Ok? then r.value else s.db)
  }

  predicate Renew(s: World, s': World, sandboxId: string, ttl: int) {
    var r := RenewTx(s.db, sandboxId, s.clock + ttl);
    && s.mode == Serving && r.Ok? && s' == s.(db := r.value)
  }

  // ---------------------------------------------------------------- checkpoint

  /** `create_operation` for a checkpoint of the current generation, without what follows it. */
  predicate OpenCheckpoint(s: World, s': World, w: string, o: string) {
    && s.mode == Serving && w in s.db.workspaces
    && var row := s.db.workspaces[w];
    && row.active.None? && row.status in {DetachedDirty, DetachedClean}
    && var r := CreateOperationTx(s.db, o, Checkpoint(row.generation), w, None,
                                  CheckpointKey(w, row.generation), s.clock);
    && r.Ok? && s' == s.(db := r.value)
  }

  /** A checkpoint request that finds the workspace clean reports success at once. */
  predicate ReportClean(s: World, s': World, w: string, o: string, result: string) {
    && s.mode == Serving && w in s.db.workspaces
    && var row := s.db.workspaces[w];
    && row.active.None? && row.status == DetachedClean
    && var key := CheckpointKey(w, row.generation);
    && Holds(s.db, o, key) && s.db.operations[o].workspaceId == w
    && s.db.operations[o].request == Checkpoint(row.generation)
    && var r := UpdateOperationTx(s.db, o, Succeeded, None, Some(result), None, s.clock);
    && r.Ok? && s' == s.(db := r.value)
  }

  /** A request for a failed checkpoint operation makes it pending again. */
  predicate RetryCheckpoint(s: World, s': World, o: string) {
    && s.mode == Serving && o in s.db.operations
    && s.db.operations[o].request.Checkpoint? && s.db.operations[o].status == OperationStatus.Failed
    && var r := UpdateOperationTx(s.db, o, Pending, s.db.operations[o].phase,
                                  s.db.operations[o].result, None, s.clock);
    && r.Ok? && s' == s.(db := r.value)
  }

  /** `_checkpoint_workspace` from taking the lock to the move to checkpointing. */
  predicate SaveStart(s: World, s': World, w: string, o: string) {
    && s.mode == Serving && LockFree(s, w) && w in s.db.workspaces
    && var row := s.db.workspaces[w];
    && row.active.None? && row.status == DetachedDirty
    && var key := CheckpointKey(w, row.generation);
    && var created := CreateOperationTx(s.db, o, Checkpoint(row.generation), w, None, key, s.clock);
    && created.Ok? && Holds(created.value, o, key)
    && created.value.operations[o].status != Succeeded
    && var r := TransitionTx(created.value, w, {DetachedDirty}, Checkpointing, s.clock);
    && r.Ok?
    && s' == AddTask(s, Saving(w, r.value.workspaces[w].generation, o, false)).(db := r.value)
  }

  predicate IsSaving(s: World, t: nat) {
    t in s.tasks && s.tasks[t].Saving?
  }

  predicate SaveRunning(s: World, s': World, t: nat) {
    && IsSaving(s, t) && !s.tasks[t].failing
    && var r := UpdateOperationTx(s.db, s.tasks[t].operationId, InProgress, None, None, None, s.clock);
    && r.Ok? && s' == s.(db := r.value)
  }

  predicate SaveCommit(s: World, s': World, t: nat, revision: string, result: string) {
    && IsSaving(s, t) && !s.tasks[t].failing
    && var w := s.tasks[t].workspaceId;
    && var r := CommitRevisionTx(s.db, w, s.tasks[t].operationId, revision,
                                 s.tasks[t].generation, result, s.clock);
    && r.Ok?
    && s' == EndTask(s, t).(db := r.value,
                            headGeneration := s.headGeneration[w := s.tasks[t].generation])
  }

  /** The capture or its commit failed: the operation is marked failed first. */
  predicate SaveFail(s: World, s': World, t: nat, error: string) {
    && IsSaving(s, t) && !s.tasks[t].failing
    && var r := UpdateOperationTx(s.db, s.tasks[t].operationId, OperationStatus.Failed, None, None,
                                  Some(error), s.clock);
    && s' == SetTask(s, t, s.tasks[t].(failing := true)).(db := if r.Ok? then r.value else s.db)
  }

  predicate SaveRevert(s: World, s': World, t: nat) {
    && IsSaving(s, t) && s.tasks[t].failing
    && var r := TransitionTx(s.db, s.tasks[t].workspaceId, {Checkpointing}, DetachedDirty, s.clock);
    && s' == EndTask(s, t).(db := if r.Ok? then r.value else s.db)
  }

  // ---------------------------------------------------------------- prepare, evict, retire

  predicate PrepareStart(s: World, s': World, w: string) {
    && s.mode == Serving && LockFree(s, w) && w in s.db.workspaces
    && s' == AddTask(s, Preparing(w, s.db.workspaces[w].head))
  }

  predicate IsPreparing(s: World, t: nat) {
    t in s.tasks && s.tasks[t].Preparing?
  }

  /** The volume was gone although the row, read with a head, was not remote-only. */
  predicate PrepareDemote(s: World, s': World, t: nat) {
    && IsPreparing(s, t) && s.tasks[t].head.Some?
    && var r := TransitionTx(s.db, s.tasks[t].workspaceId, {DetachedClean}, RemoteOnly, s.clock);
    && r.Ok? && s' == s.(db := r.value)
  }

  predicate FetchStart(s: World, s': World, t: nat, o: string) {
    && IsPreparing(s, t) && s.tasks[t].head.Some?
    && var w := s.tasks[t].workspaceId;
    && var created := CreateOperationTx(s.db, o, Restore(s.tasks[t].head.value), w, None,
                                        RestoreKey(w, s.tasks[t].head.value), s.clock);
    && created.Ok?
    && var r := TransitionTx(created.value, w, {RemoteOnly}, Restoring, s.clock);
    && r.Ok? && s' == SetTask(s, t, Fetching(w, s.tasks[t].head.value)).(db := r.value)
  }

  /** The restore ended: `fetched` says whether the runner succeeded. */
  predicate FetchEnd(s: World, s': World, t: nat, fetched: bool) {
    && t in s.tasks && s.tasks[t].Fetching?
    && var r := TransitionTx(s.db, s.tasks[t].workspaceId, {Restoring},
                             if fetched then DetachedClean else RemoteOnly, s.clock);
    && s' == EndTask(s, t).(db := if r.Ok? then r.value else s.db)
  }

  predicate EvictStart(s: World, s': World, w: string) {
    && s.mode == Serving && LockFree(s, w) && w in s.db.workspaces
    && var row := s.db.workspaces[w];
    && row.status == DetachedClean && row.head.Some? && row.active.None?
    && row.updatedAt <= s.clock - s.retention
    && s' == AddTask(s, Evicting(w))
  }

  predicate EvictEnd(s: World, s': World, t: nat) {
    && t in s.tasks && s.tasks[t].Evicting?
    && var r := TransitionTx(s.db, s.tasks[t].workspaceId, {DetachedClean}, RemoteOnly, s.clock);
    && s' == EndTask(s, t).(db := if r.Ok? then r.value else s.db)
  }

  /** `_retire_workspace` from its checks to the move to deleting runs without an await. */
  predicate RetireStart(s: World, s': World, w: string, o: string) {
    && s.mode == Serving && LockFree(s, w) && w in s.db.workspaces
    && var row := s.db.workspaces[w];
    && row.deleteAfter.Some? && row.deleteAfter.value <= s.clock && row.active.None?
    && row.status in {DetachedClean, RemoteOnly, Deleting}
    && var created := CreateOperationTx(s.db, o, Retire, w, None, RetireKey(w), s.clock);
    && created.Ok?
    && var r := if row.status == Deleting then created
                else TransitionTx(created.value, w, {DetachedClean, RemoteOnly}, Deleting, s.clock);
    && r.Ok? && s' == AddTask(s, Retiring(w)).(db := r.value)
  }

  predicate RetireDelete(s: World, s': World, t: nat) {
    && t in s.tasks && s.tasks[t].Retiring?
    && var r := DeleteWorkspaceTx(s.db, s.tasks[t].workspaceId);
    && r.Ok?
    && s' == Forget(EndTask(s, t), s.tasks[t].workspaceId).(db := r.value)
  }

  /** A coroutine that holds a lock returns or fails without a further transaction. */
  predicate Abandon(s: World, s': World, t: nat) {
    && t in s.tasks
    && (s.tasks[t].Preparing? || s.tasks[t].Evicting? || s.tasks[t].Retiring?)
    && s' == EndTask(s, t)
  }

  // ---------------------------------------------------------------- other rows

  /** Every operation row is filed under the key its request calls for. */
  predicate KeyFits(op: Operation) {
    match op.request
    case Checkpoint(g) => op.key == CheckpointKey(op.workspaceId, g)
    case Restore(r) => op.key == RestoreKey(op.workspaceId, r)
    case Retire => op.key == RetireKey(op.workspaceId)
    case Checkout(_) => |op.key| > 0 && op.key[0] == 'a'
    case Publish(_) => |op.key| > 0 && op.key[0] == 'a'
  }

  /** A checkout, publish, restore or retire operation is filed. */
  predicate OpenOther(s: World, s': World, o: string, op: Operation) {
    && s.mode == Serving && !op.request.Checkpoint? && KeyFits(op)
    && var r := CreateOperationTx(s.db, o, op.request, op.workspaceId, op.sandboxId, op.key, s.clock);
    && r.Ok? && s' == s.(db := r.value)
  }

  /** Such an operation moves on, in whatever order its coroutine reports. */
  predicate UpdateOther(s: World, s': World, o: string, op: Operation) {
    && s.mode == Serving && o in s.db.operations && !s.db.operations[o].request.Checkpoint?
    && var r := UpdateOperationTx(s.db, o, op.status, op.phase, op.result, op.error, s.clock);
    && r.Ok? && s' == s.(db := r.value)
  }

  predicate ConsumeNonce(s: World, s': World, nonce: string, expiresAt: int) {
    && s.mode == Serving
    && s' == s.(db := s.db.(nonces := ConsumeNonceTx(s.db.nonces, nonce, expiresAt, s.clock).0))
  }

  // ---------------------------------------------------------------- crash and startup

  /** Memory is lost; containers and the database survive. */
  predicate Crash(s: World, s': World) {
    s' == s.(tasks := map[], records := map[], mode := Booting)
  }

  /** A row whose creation was interrupted is marked running, any other stays. */
  function MarkStartedTx(t: Tables, sandboxId: string, now: int): Commit
    requires sandboxId in t.sandboxes
  {
    if t.sandboxes[sandboxId].status == SandboxStatus.Starting
    then MarkRunningTx(t, sandboxId, now) else Ok(t)
  }

  /** Reconciliation adopts a healthy, unexpired Worker. */
  predicate Adopt(s: World, s': World, sandboxId: string) {
    && s.mode == Booting && sandboxId in s.containers
    && sandboxId in s.db.sandboxes && IsLive(s.db.sandboxes[sandboxId].status)
    && s.containers[sandboxId] == s.db.sandboxes[sandboxId].workspaceId
    && s.db.sandboxes[sandboxId].expiresAt.Some?
    && s.db.sandboxes[sandboxId].expiresAt.value > s.clock
    && var r := MarkStartedTx(s.db, sandboxId, s.clock);
    && r.Ok?
    && s' == s.(db := r.value, records := s.records[sandboxId :=
                  RecordOf(s, s.db.sandboxes[sandboxId].workspaceId)])
  }

  /** Reconciliation removes a Worker it does not adopt. */
  predicate Discard(s: World, s': World, sandboxId: string) {
    && s.mode == Booting && sandboxId !in s.records
    && s' == s.(containers := s.containers - {sandboxId})
  }

  /** `_finish_reconciled_sandbox` for a live row without a Worker. */
  predicate FinishLost(s: World, s': World, sandboxId: string) {
    && s.mode == Booting && sandboxId !in s.records && sandboxId !in s.containers
    && sandboxId in s.db.sandboxes
    && var r := FinishTx(s.db, sandboxId, SandboxStatus.Failed,
                         FinishedStatus(s.db.sandboxes[sandboxId].workspaceId !in s.minted), s.clock);
    && r.Ok? && s' == s.(db := r.value)
  }

  predicate FailInterrupted(s: World, s': World, o: string, phase: Option<string>, error: string) {
    && s.mode == Booting && o in IncompleteOperations(s.db)
    && var r := UpdateOperationTx(s.db, o, OperationStatus.Failed, phase,
                                  s.db.operations[o].result, Some(error), s.clock);
    && r.Ok? && s' == s.(db := r.value)
  }

  predicate RevertInterrupted(s: World, s': World, w: string, from: WorkspaceStatus) {
    && s.mode == Booting && from in {Checkpointing, Restoring}
    && var r := TransitionTx(s.db, w, {from},
                             if from == Checkpointing then DetachedDirty else RemoteOnly, s.clock);
    && r.Ok? && s' == s.(db := r.value)
  }

  /** What `startup` has established when it returns. */
  predicate Recovered(s: World) {
    && s.records.Keys == ActiveSandboxes(s.db)
    && WithStatus(s.db, Checkpointing) == {}
    && WithStatus(s.db, Restoring) == {}
    && IncompleteOperations(s.db) == {}
  }

  predicate Serve(s: World, s': World) {
    s.mode == Booting && Recovered(s) && s' == s.(mode := Serving)
  }

  // ---------------------------------------------------------------- the transition system

  datatype Step =
    | DoTick(seconds: nat)
    | DoCreateRecoverable(w: string, volume: string)
    | DoMintEphemeral(w: string, volume: string)
    | DoDeleteEphemeral(w: string)
    | DoRelease(w: string)
    | DoClaim(w: string, sandboxId: string, host: string, ttl: int)
    | DoCreateContainer(t: nat)
    | DoMarkRunning(t: nat)
    | DoKeepRecord(t: nat)
    | DoAbandonContainer(t: nat)
    | DoFinishFailedCreation(t: nat)
    | DoTerminateStart(sandboxId: string)
    | DoTerminateRemove(t: nat)
    | DoTerminatePop(t: nat)
    | DoTerminateFinish(t: nat)
    | DoRenew(sandboxId: string, ttl: int)
    | DoOpenCheckpoint(w: string, o: string)
    | DoReportClean(w: string, o: string, result: string)
    | DoRetryCheckpoint(o: string)
    | DoSaveStart(w: string, o: string)
    | DoSaveRunning(t: nat)
    | DoSaveCommit(t: nat, revision: string, result: string)
    | DoSaveFail(t: nat, error: string)
    | DoSaveRevert(t: nat)
    | DoPrepareStart(w: string)
    | DoPrepareDemote(t: nat)
    | DoFetchStart(t: nat, o: string)
    | DoFetchEnd(t: nat, fetched: bool)
    | DoEvictStart(w: string)
    | DoEvictEnd(t: nat)
    | DoRetireStart(w: string, o: string)
    | DoRetireDelete(t: nat)
    | DoAbandon(t: nat)
    | DoOpenOther(o: string, op: Operation)
    | DoUpdateOther(o: string, op: Operation)
    | DoConsumeNonce(nonce: string, expiresAt: int)
    | DoCrash
    | DoAdopt(sandboxId: string)
    | DoDiscard(sandboxId: string)
    | DoFinishLost(sandboxId: string)
    | DoFailInterrupted(o: string, phase: Option<string>, error: string)
    | DoRevertInterrupted(w: string, from: WorkspaceStatus)
    | DoServe

  /** The coroutine creates or terminates this sandbox. */
  predicate IsOf(s: World, t: nat, b: string) {
    t in s.tasks && (s.tasks[t].Creating? || s.tasks[t].Terminating?) && s.tasks[t].sandboxId == b
  }

  /** The sandbox that a step ends: its Worker was stopped, its creation failed, or it was lost. */
  function Ended(s: World, step: Step): Option<string> {
    if step.DoFinishLost? then Some(step.sandboxId)
    else if (step.DoFinishFailedCreation? || step.DoTerminateFinish?) && step.t in s.tasks
            && (s.tasks[step.t].Creating? || s.tasks[step.t].Terminating?)
    then Some(s.tasks[step.t].sandboxId)
    else None
  }

  predicate LifecycleNext(s: World, step: Step, s': World) {
    match step
    case DoCreateRecoverable(w, v) => CreateRecoverable(s, s', w, v)
    case DoMintEphemeral(w, v) => MintEphemeral(s, s', w, v)
    case DoDeleteEphemeral(w) => DeleteEphemeral(s, s', w)
    case DoRelease(w) => Release(s, s', w)
    case _ => false
  }

  predicate CreateNext(s: World, step: Step, s': World) {
    match step
    case DoClaim(w, b, h, ttl) => Claim(s, s', w, b, h, ttl)
    case DoCreateContainer(t) => CreateContainer(s, s', t)
    case DoMarkRunning(t) => MarkRunning(s, s', t)
    case DoKeepRecord(t) => KeepRecord(s, s', t)
    case DoAbandonContainer(t) => AbandonContainer(s, s', t)
    case DoFinishFailedCreation(t) => FinishFailedCreation(s, s', t)
    case _ => false
  }

  predicate TerminateNext(s: World, step: Step, s': World) {
    match step
    case DoTerminateStart(b) => TerminateStart(s, s', b)
    case DoTerminateRemove(t) => TerminateRemove(s, s', t)
    case DoTerminatePop(t) => TerminatePop(s, s', t)
    case DoTerminateFinish(t) => TerminateFinish(s, s', t)
    case DoRenew(b, ttl) => Renew(s, s', b, ttl)
    case _ => false
  }

  predicate RequestNext(s: World, step: Step, s': World) {
    match step
    case DoTick(n) => Tick(s, s', n)
    case DoOpenOther(o, op) => OpenOther(s, s', o, op)
    case DoUpdateOther(o, op) => UpdateOther(s, s', o, op)
    case DoConsumeNonce(n, e) => ConsumeNonce(s, s', n, e)
    case DoOpenCheckpoint(w, o) => OpenCheckpoint(s, s', w, o)
    case DoReportClean(w, o, r) => ReportClean(s, s', w, o, r)
    case DoRetryCheckpoint(o) => RetryCheckpoint(s, s', o)
    case _ => false
  }

  predicate SaveNext(s: World, step: Step, s': World) {
    match step
    case DoSaveStart(w, o) => SaveStart(s, s', w, o)
    case DoSaveRunning(t) => SaveRunning(s, s', t)
    case DoSaveCommit(t, v, r) => SaveCommit(s, s', t, v, r)
    case DoSaveFail(t, e) => SaveFail(s, s', t, e)
    case DoSaveRevert(t) => SaveRevert(s, s', t)
    case _ => false
  }

  predicate RestoreNext(s: World, step: Step, s': World) {
    match step
    case DoPrepareStart(w) => PrepareStart(s, s', w)
    case DoPrepareDemote(t) => PrepareDemote(s, s', t)
    case DoFetchStart(t, o) => FetchStart(s, s', t, o)
    case DoFetchEnd(t, f) => FetchEnd(s, s', t, f)
    case _ => false
  }

  predicate RetainNext(s: World, step: Step, s': World) {
    match step
    case DoEvictStart(w) => EvictStart(s, s', w)
    case DoEvictEnd(t) => EvictEnd(s, s', t)
    case DoRetireStart(w, o) => RetireStart(s, s', w, o)
    case DoRetireDelete(t) => RetireDelete(s, s', t)
    case DoAbandon(t) => Abandon(s, s', t)
    case _ => false
  }

  predicate StartupNext(s: World, step: Step, s': World) {
    match step
    case DoCrash => Crash(s, s')
    case DoAdopt(b) => Adopt(s, s', b)
    case DoDiscard(b) => Discard(s, s', b)
    case DoFinishLost(b) => FinishLost(s, s', b)
    case DoFailInterrupted(o, p, e) => FailInterrupted(s, s', o, p, e)
    case DoRevertInterrupted(w, f) => RevertInterrupted(s, s', w, f)
    case DoServe => Serve(s, s')
    case _ => false
  }

  predicate Next(s: World, step: Step, s': World) {
    || LifecycleNext(s, step, s')
    || CreateNext(s, step, s')
    || TerminateNext(s, step, s')
    || RequestNext(s, step, s')
    || SaveNext(s, step, s')
    || RestoreNext(s, step, s')
    || RetainNext(s, step, s')
    || StartupNext(s, step, s')
  }

  /** A run: states and, between each two, the step that was taken. */
  datatype Run = Run(worlds: seq<World>, steps: seq<Step>) {
    ghost predicate StepAt(i: nat)
      requires |worlds| == |steps| + 1
    {
      i < |steps| && Next(worlds[i], steps[i], worlds[i + 1])
    }

    ghost predicate Valid() {
      && |worlds| == |steps| + 1
      && Init(worlds[0])
      && forall i: nat {:trigger StepAt(i)} :: i < |steps| ==> StepAt(i)
    }
  }
}
