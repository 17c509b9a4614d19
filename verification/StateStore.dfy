/** The store as an object whose methods run the statements of each transaction in turn. */
module StateStores {
  import opened Prelude
  import opened StateTables

  class StateStore {
    var workspaces: map<string, Workspace>
    var sandboxes: map<string, Sandbox>
    var revisions: map<string, Revision>
    var operations: map<string, Operation>
    var nonces: map<string, Nonce>

    function State(): Tables
      reads this
    {
      Tables(workspaces, sandboxes, revisions, operations, nonces)
    }

    constructor ()
      ensures State() == EMPTY
    {
      workspaces, sandboxes, revisions, operations, nonces := map[], map[], map[], map[], map[];
    }

    /** An existing workspace of the same kind and volume is returned as it is. */
    method CreateWorkspace(id: string, kind: Kind, volume: string, now: int)
      returns (r: Result<Workspace, StoreError>)
      modifies this
      ensures match CreateWorkspaceTx(old(State()), id, kind, volume, now)
              case Ok(t) => State() == t && id in t.workspaces && r == Ok(t.workspaces[id])
              case Err(e) => State() == old(State()) && r == Err(e)
    {
      if id !in workspaces {
        if exists w :: w in workspaces && workspaces[w].volume == volume {
          return Err(Integrity);
        }
        workspaces := workspaces[id := Workspace(kind, DetachedClean, volume, 0, None, None, now, now, None)];
      }
      var row := workspaces[id];
      if row.kind != kind || row.volume != volume {
        return Err(Conflict);
      }
      return Ok(row);
    }

    method GetWorkspace(id: string) returns (r: Result<Workspace, StoreError>)
      ensures r == if id in workspaces then Ok(workspaces[id]) else Err(NotFound)
    {
      if id !in workspaces {
        return Err(NotFound);
      }
      return Ok(workspaces[id]);
    }

    /** Makes the sandbox the workspace's writer and opens a new generation. */
    method ClaimWorkspace(id: string, sandboxId: string, host: string, container: string,
                          now: int, expiresAt: int)
      returns (r: Result<(Workspace, Sandbox), StoreError>)
      modifies this
      ensures match ClaimTx(old(State()), id, sandboxId, host, container, now, expiresAt)
              case Ok(t) =>
                && State() == t && id in t.workspaces && sandboxId in t.sandboxes
                && r == Ok((t.workspaces[id], t.sandboxes[sandboxId]))
              case Err(e) => State() == old(State()) && r == Err(e)
    {
      if id !in workspaces {
        return Err(NotFound);
      }
      var row := workspaces[id];
      if row.active != None && row.active != Some(sandboxId) {
        return Err(Conflict);
      }
      if row.status in {Checkpointing, Restoring, Deleting, WorkspaceStatus.Deleted} {
        return Err(Conflict);
      }
      if sandboxId in sandboxes {
        return Err(Integrity);
      }
      sandboxes := sandboxes[sandboxId := Sandbox(id, host, container, Starting, now, Some(expiresAt))];
      workspaces := workspaces[id := row.(status := Running, active := Some(sandboxId),
                                          generation := row.generation + 1, updatedAt := now,
                                          deleteAfter := None)];
      return Ok((workspaces[id], sandboxes[sandboxId]));
    }

    method MarkSandboxRunning(sandboxId: string, now: int) returns (r: Result<(), StoreError>)
      modifies this
      ensures match MarkRunningTx(old(State()), sandboxId, now)
              case Ok(t) => State() == t && r == Ok(())
              case Err(e) => State() == old(State()) && r == Err(e)
    {
      if sandboxId !in sandboxes || sandboxes[sandboxId].status != Starting {
        return Err(Conflict);
      }
      sandboxes := sandboxes[sandboxId := sandboxes[sandboxId].(status := Live)];
      workspaces := map w | w in workspaces ::
        if workspaces[w].active == Some(sandboxId) then workspaces[w].(updatedAt := now) else workspaces[w];
      return Ok(());
    }

    method RenewSandbox(sandboxId: string, expiresAt: int) returns (r: Result<Sandbox, StoreError>)
      modifies this
      ensures match RenewTx(old(State()), sandboxId, expiresAt)
              case Ok(t) => State() == t && sandboxId in t.sandboxes && r == Ok(t.sandboxes[sandboxId])
              case Err(e) => State() == old(State()) && r == Err(e)
    {
      if sandboxId !in sandboxes || sandboxes[sandboxId].status != Live {
        return Err(Conflict);
      }
      sandboxes := sandboxes[sandboxId := sandboxes[sandboxId].(expiresAt := Some(expiresAt))];
      return Ok(sandboxes[sandboxId]);
    }

    /** Only the workspace that still names the sandbox as its writer changes. */
    method FinishSandbox(sandboxId: string, status: SandboxStatus, workspaceStatus: WorkspaceStatus, now: int)
      returns (r: Result<Workspace, StoreError>)
      modifies this
      ensures match FinishTx(old(State()), sandboxId, status, workspaceStatus, now)
              case Ok(t) =>
                && State() == t && sandboxId in t.sandboxes
                && t.sandboxes[sandboxId].workspaceId in t.workspaces
                && r == Ok(t.workspaces[t.sandboxes[sandboxId].workspaceId])
              case Err(e) => State() == old(State()) && r == Err(e)
    {
      if sandboxId !in sandboxes {
        return Err(NotFound);
      }
      var id := sandboxes[sandboxId].workspaceId;
      if id !in workspaces {
        return Err(Integrity);
      }
      sandboxes := sandboxes[sandboxId := sandboxes[sandboxId].(status := status, expiresAt := None)];
      if workspaces[id].active == Some(sandboxId) {
        workspaces := workspaces[id :=
          workspaces[id].(status := workspaceStatus, active := None, updatedAt := now)];
      }
      return Ok(workspaces[id]);
    }

    method DeleteWorkspace(id: string) returns (r: Result<(), StoreError>)
      modifies this
      ensures match DeleteWorkspaceTx(old(State()), id)
              case Ok(t) => State() == t && r == Ok(())
              case Err(e) => State() == old(State()) && r == Err(e)
    {
      if id !in workspaces {
        return Ok(());
      }
      if workspaces[id].active.Some? {
        return Err(Conflict);
      }
      operations := map o | o in operations && operations[o].workspaceId != id :: operations[o];
      revisions := map v | v in revisions && revisions[v].workspaceId != id :: revisions[v];
      sandboxes := map b | b in sandboxes && sandboxes[b].workspaceId != id :: sandboxes[b];
      workspaces := workspaces - {id};
      return Ok(());
    }

    method ScheduleWorkspaceDelete(id: string, deleteAfter: int, now: int)
      returns (r: Result<Workspace, StoreError>)
      modifies this
      ensures match ScheduleDeleteTx(old(State()), id, deleteAfter, now)
              case Ok(t) => State() == t && id in t.workspaces && r == Ok(t.workspaces[id])
              case Err(e) => State() == old(State()) && r == Err(e)
    {
      if id !in workspaces || workspaces[id].kind != Recoverable {
        return Err(NotFound);
      }
      workspaces := workspaces[id := workspaces[id].(deleteAfter := Some(deleteAfter), updatedAt := now)];
      return Ok(workspaces[id]);
    }

    method TransitionWorkspace(id: string, expected: set<WorkspaceStatus>, status: WorkspaceStatus, now: int)
      returns (r: Result<Workspace, StoreError>)
      modifies this
      ensures match TransitionTx(old(State()), id, expected, status, now)
              case Ok(t) => State() == t && id in t.workspaces && r == Ok(t.workspaces[id])
              case Err(e) => State() == old(State()) && r == Err(e)
    {
      if id !in workspaces {
        return Err(NotFound);
      }
      if workspaces[id].status !in expected {
        return Err(Conflict);
      }
      if workspaces[id].active.Some? && status != Running {
        return Err(Conflict);
      }
      workspaces := workspaces[id := workspaces[id].(status := status, updatedAt := now)];
      return Ok(workspaces[id]);
    }

    /** Revision, head, status and operation change together, or not at all. */
    method CommitRevision(id: string, operationId: string, revision: string, generation: nat,
                          result: string, now: int)
      returns (r: Result<(Workspace, Operation), StoreError>)
      modifies this
      ensures match CommitRevisionTx(old(State()), id, operationId, revision, generation, result, now)
              case Ok(t) =>
                && State() == t && id in t.workspaces && operationId in t.operations
                && r == Ok((t.workspaces[id], t.operations[operationId]))
              case Err(e) => State() == old(State()) && r == Err(e)
    {
      if id !in workspaces {
        return Err(NotFound);
      }
      var row := workspaces[id];
      if row.status != Checkpointing || row.active.Some? || row.generation != generation {
        return Err(Conflict);
      }
      if revision in revisions && revisions[revision].workspaceId != id {
        return Err(Integrity);
      }
      if operationId !in operations {
        return Err(Integrity);
      }
      if revision !in revisions {
        revisions := revisions[revision := Revision(id, revision, now)];
      }
      workspaces := workspaces[id := row.(head := Some(revision), status := DetachedClean, updatedAt := now)];
      operations := operations[operationId :=
        operations[operationId].(status := Succeeded, result := Some(result), error := None, updatedAt := now)];
      return Ok((workspaces[id], operations[operationId]));
    }

    /** A key that is already filed returns its operation; otherwise a pending one is inserted. */
    method CreateOperation(operationId: string, request: Request, workspaceId: string,
                           sandboxId: Option<string>, key: string, now: int)
      returns (r: Result<(Operation, bool), StoreError>)
      modifies this
      ensures match CreateOperationTx(old(State()), operationId, request, workspaceId, sandboxId, key, now)
              case Ok(t) =>
                && State() == t && r.Ok? && r.value.0.key == key
                && (exists o :: o in t.operations && t.operations[o] == r.value.0)
                && (r.value.1 <==> !HasKey(old(State()), key))
              case Err(e) => State() == old(State()) && r == Err(e)
    {
      if o :| o in operations && operations[o].key == key {
        assert HasKey(State(), key);
        return Ok((operations[o], false));
      }
      if workspaceId !in workspaces || operationId in operations {
        return Err(Integrity);
      }
      operations := operations[operationId :=
        Operation(request, Pending, None, workspaceId, sandboxId, key, None, None, now, now)];
      return Ok((operations[operationId], true));
    }

    method UpdateOperation(operationId: string, status: OperationStatus, phase: Option<string>,
                           result: Option<string>, error: Option<string>, now: int)
      returns (r: Result<Operation, StoreError>)
      modifies this
      ensures match UpdateOperationTx(old(State()), operationId, status, phase, result, error, now)
              case Ok(t) => State() == t && operationId in t.operations && r == Ok(t.operations[operationId])
              case Err(e) => State() == old(State()) && r == Err(e)
    {
      if operationId !in operations {
        return Err(NotFound);
      }
      operations := operations[operationId :=
        operations[operationId].(status := status, phase := phase, result := result, error := error,
                                 updatedAt := now)];
      return Ok(operations[operationId]);
    }

    method ConsumeNonce(nonce: string, expiresAt: int, now: int) returns (accepted: bool)
      modifies this
      ensures State() == old(State()).(nonces := ConsumeNonceTx(old(nonces), nonce, expiresAt, now).0)
      ensures accepted == ConsumeNonceTx(old(nonces), nonce, expiresAt, now).1
    {
      nonces := map n | n in nonces && nonces[n].expiresAt > now :: nonces[n];
      if nonce in nonces {
        return false;
      }
      nonces := nonces[nonce := Nonce(expiresAt, now)];
      return true;
    }
  }
}
