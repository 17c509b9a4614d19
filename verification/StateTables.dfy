/**
  The Manager's SQLite tables as values, and each `StateStore` transaction as a function
  from the tables to the tables it commits, or to the error that rolls it back.
 */
module StateTables {
  import opened Prelude

  datatype Kind = Ephemeral | Recoverable

  datatype WorkspaceStatus =
    | DetachedClean | Running | DetachedDirty | Checkpointing
    | Restoring | RemoteOnly | Deleting | Deleted

  datatype Workspace = Workspace(
    kind: Kind,
    status: WorkspaceStatus,
    volume: string,
    generation: nat,
    head: Option<string>,
    active: Option<string>,
    createdAt: int,
    updatedAt: int,
    deleteAfter: Option<int>)

  /** The source calls `Live` sandboxes "running". */
  datatype SandboxStatus = Starting | Live | Terminated | Failed

  datatype Sandbox = Sandbox(
    workspaceId: string,
    workerHost: string,
    containerName: string,
    status: SandboxStatus,
    createdAt: int,
    expiresAt: Option<int>)

  datatype Revision = Revision(workspaceId: string, snapshotId: string, createdAt: int)

  /** An operation's name together with the input recorded for it. */
  datatype Request =
    | Checkpoint(generation: nat)
    | Restore(revision: string)
    | Retire
    | Checkout(input: string)
    | Publish(input: string)

  /** The source calls `InProgress` operations "running". */
  datatype OperationStatus = Pending | InProgress | Succeeded | Failed

  datatype Operation = Operation(
    request: Request,
    status: OperationStatus,
    phase: Option<string>,
    workspaceId: string,
    sandboxId: Option<string>,
    key: string,
    result: Option<string>,
    error: Option<string>,
    createdAt: int,
    updatedAt: int)

  datatype Nonce = Nonce(expiresAt: int, consumedAt: int)

  datatype Tables = Tables(
    workspaces: map<string, Workspace>,
    sandboxes: map<string, Sandbox>,
    revisions: map<string, Revision>,
    operations: map<string, Operation>,
    nonces: map<string, Nonce>)

  /** `NotFound` and `Conflict` are raised by the store, `Integrity` by SQLite or an assertion. */
  datatype StoreError = NotFound | Conflict | Integrity

  type Commit = Result<Tables, StoreError>

  predicate IsLive(status: SandboxStatus) {
    status == Starting || status == Live
  }

  predicate IsIncomplete(status: OperationStatus) {
    status == Pending || status == InProgress
  }

  const EMPTY := Tables(map[], map[], map[], map[], map[])

  // ---------------------------------------------------------------- workspaces

  function CreateWorkspaceTx(t: Tables, id: string, kind: Kind, volume: string, now: int): Commit {
    if id in t.workspaces then
      if t.workspaces[id].kind != kind || t.workspaces[id].volume != volume
      then Err(Conflict) else Ok(t)
    else if exists w :: w in t.workspaces && t.workspaces[w].volume == volume then
      Err(Integrity)
    else
      Ok(t.(workspaces := t.workspaces[id :=
        Workspace(kind, DetachedClean, volume, 0, None, None, now, now, None)]))
  }

  function ClaimTx(t: Tables, id: string, sandboxId: string, host: string, container: string,
                   now: int, expiresAt: int): Commit
  {
    if id !in t.workspaces then Err(NotFound)
    else
      var w := t.workspaces[id];
      if w.active != None && w.active != Some(sandboxId) then Err(Conflict)
      else if w.status in {Checkpointing, Restoring, Deleting, Deleted} then Err(Conflict)
      else if sandboxId in t.sandboxes then Err(Integrity)
      else
        Ok(t.(sandboxes := t.sandboxes[sandboxId :=
                Sandbox(id, host, container, Starting, now, Some(expiresAt))],
              workspaces := t.workspaces[id :=
                w.(status := Running, active := Some(sandboxId), generation := w.generation + 1,
                   updatedAt := now, deleteAfter := None)]))
  }

  function DeleteWorkspaceTx(t: Tables, id: string): Commit {
    if id !in t.workspaces then Ok(t)
    else if t.workspaces[id].active.Some? then Err(Conflict)
    else
      Ok(t.(operations := map o | o in t.operations && t.operations[o].workspaceId != id :: t.operations[o],
            revisions := map r | r in t.revisions && t.revisions[r].workspaceId != id :: t.revisions[r],
            sandboxes := map s | s in t.sandboxes && t.sandboxes[s].workspaceId != id :: t.sandboxes[s],
            workspaces := t.workspaces - {id}))
  }

  function ScheduleDeleteTx(t: Tables, id: string, deleteAfter: int, now: int): Commit {
    if id !in t.workspaces || t.workspaces[id].kind != Recoverable then Err(NotFound)
    else
      Ok(t.(workspaces := t.workspaces[id :=
        t.workspaces[id].(deleteAfter := Some(deleteAfter), updatedAt := now)]))
  }

  function TransitionTx(t: Tables, id: string, expected: set<WorkspaceStatus>,
                        status: WorkspaceStatus, now: int): Commit
  {
    if id !in t.workspaces then Err(NotFound)
    else if t.workspaces[id].status !in expected then Err(Conflict)
    else if t.workspaces[id].active.Some? && status != Running then Err(Conflict)
    else
      Ok(t.(workspaces := t.workspaces[id := t.workspaces[id].(status := status, updatedAt := now)]))
  }

  function CommitRevisionTx(t: Tables, id: string, operationId: string, revision: string,
                            generation: nat, result: string, now: int): Commit
  {
    if id !in t.workspaces then Err(NotFound)
    else
      var w := t.workspaces[id];
      if w.status != Checkpointing || w.active.Some? || w.generation != generation then Err(Conflict)
      else if revision in t.revisions && t.revisions[revision].workspaceId != id then Err(Integrity)
      else if operationId !in t.operations then Err(Integrity)
      else
        Ok(t.(revisions := if revision in t.revisions then t.revisions
                           else t.revisions[revision := Revision(id, revision, now)],
              workspaces := t.workspaces[id :=
                w.(head := Some(revision), status := DetachedClean, updatedAt := now)],
              operations := t.operations[operationId :=
                t.operations[operationId].(status := Succeeded, result := Some(result),
                                           error := None, updatedAt := now)]))
  }

  // ---------------------------------------------------------------- sandboxes

  function MarkRunningTx(t: Tables, sandboxId: string, now: int): Commit {
    if sandboxId !in t.sandboxes || t.sandboxes[sandboxId].status != Starting then Err(Conflict)
    else
      Ok(t.(sandboxes := t.sandboxes[sandboxId := t.sandboxes[sandboxId].(status := Live)],
            workspaces := map w | w in t.workspaces ::
              if t.workspaces[w].active == Some(sandboxId)
              then t.workspaces[w].(updatedAt := now) else t.workspaces[w]))
  }

  function RenewTx(t: Tables, sandboxId: string, expiresAt: int): Commit {
    if sandboxId !in t.sandboxes || t.sandboxes[sandboxId].status != Live then Err(Conflict)
    else
      Ok(t.(sandboxes := t.sandboxes[sandboxId :=
        t.sandboxes[sandboxId].(expiresAt := Some(expiresAt))]))
  }

  function FinishTx(t: Tables, sandboxId: string, status: SandboxStatus,
                    workspaceStatus: WorkspaceStatus, now: int): Commit
  {
    if sandboxId !in t.sandboxes then Err(NotFound)
    else
      var id := t.sandboxes[sandboxId].workspaceId;
      if id !in t.workspaces then Err(Integrity)
      else
        var w := t.workspaces[id];
        Ok(t.(sandboxes := t.sandboxes[sandboxId :=
                t.sandboxes[sandboxId].(status := status, expiresAt := None)],
              workspaces := if w.active != Some(sandboxId) then t.workspaces
                            else t.workspaces[id :=
                              w.(status := workspaceStatus, active := None, updatedAt := now)]))
  }

  // ---------------------------------------------------------------- operations and nonces

  predicate HasKey(t: Tables, key: string) {
    exists o :: o in t.operations && t.operations[o].key == key
  }

  predicate Holds(t: Tables, o: string, key: string) {
    o in t.operations && t.operations[o].key == key
  }

  predicate UniqueKeys(t: Tables) {
    forall o, p :: o in t.operations && p in t.operations && t.operations[o].key == t.operations[p].key
      ==> o == p
  }

  /** The insertion that `create_operation` performs when no operation holds the key. */
  function CreateOperationTx(t: Tables, o: string, request: Request, workspaceId: string,
                             sandboxId: Option<string>, key: string, now: int): Commit
  {
    if HasKey(t, key) then Ok(t)
    else if workspaceId !in t.workspaces || o in t.operations then Err(Integrity)
    else
      Ok(t.(operations := t.operations[o :=
        Operation(request, Pending, None, workspaceId, sandboxId, key, None, None, now, now)]))
  }

  function UpdateOperationTx(t: Tables, o: string, status: OperationStatus, phase: Option<string>,
                             result: Option<string>, error: Option<string>, now: int): Commit
  {
    if o !in t.operations then Err(NotFound)
    else
      Ok(t.(operations := t.operations[o :=
        t.operations[o].(status := status, phase := phase, result := result, error := error,
                         updatedAt := now)]))
  }

  function Purge(nonces: map<string, Nonce>, now: int): map<string, Nonce> {
    map n | n in nonces && nonces[n].expiresAt > now :: nonces[n]
  }

  /** The purge is committed even when the nonce turns out to be spent. */
  function ConsumeNonceTx(nonces: map<string, Nonce>, nonce: string, expiresAt: int, now: int)
    : (map<string, Nonce>, bool)
  {
    var kept := Purge(nonces, now);
    if nonce in kept then (kept, false) else (kept[nonce := Nonce(expiresAt, now)], true)
  }

  // ---------------------------------------------------------------- candidate queries

  predicate Busy(t: Tables, id: string) {
    exists o :: o in t.operations && t.operations[o].workspaceId == id
                && IsIncomplete(t.operations[o].status)
  }

  function CleanupCandidates(t: Tables, updatedBefore: int): set<string> {
    set w | w in t.workspaces
            && t.workspaces[w].kind == Recoverable
            && t.workspaces[w].status == DetachedClean
            && t.workspaces[w].head.Some?
            && t.workspaces[w].active.None?
            && t.workspaces[w].updatedAt <= updatedBefore
            && !Busy(t, w)
  }

  function RetireCandidates(t: Tables, now: int): set<string> {
    set w | w in t.workspaces
            && t.workspaces[w].kind == Recoverable
            && t.workspaces[w].status in {DetachedClean, RemoteOnly, Deleting}
            && t.workspaces[w].active.None?
            && t.workspaces[w].deleteAfter.Some?
            && t.workspaces[w].deleteAfter.value <= now
            && !Busy(t, w)
  }

  function ActiveSandboxes(t: Tables): set<string> {
    set s | s in t.sandboxes && IsLive(t.sandboxes[s].status)
  }

  function WithStatus(t: Tables, status: WorkspaceStatus): set<string> {
    set w | w in t.workspaces && t.workspaces[w].status == status
  }

  function IncompleteOperations(t: Tables): set<string> {
    set o | o in t.operations && IsIncomplete(t.operations[o].status)
  }
}
