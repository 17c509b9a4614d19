/**
  What never fails: in every reached world the transaction that a coroutine is about to make goes
  through, and a request is taken exactly when it should be.
 */
module ManagerProgress {
  import opened Prelude
  import opened StateTables
  import opened OperationKeys
  import opened ManagerProtocol
  import opened ManagerInvariant
  import opened ManagerSteps
  import opened ManagerStatus

  // ---------------------------------------------------------------- coroutines

  /** A started Worker can be marked running. */
  lemma MarkGoesThrough(run: Run, i: nat, t: nat) returns (s': World)
    requires run.Valid() && i < |run.worlds|
    requires IsCreating(run.worlds[i], t) && run.worlds[i].tasks[t].creation == Started
    ensures MarkRunning(run.worlds[i], s', t)
  {
    var s := run.worlds[i];
    RunInv(run, i);
    assert TaskFits(s, s.tasks[t]);
    var marked := MarkRunningTx(s.db, s.tasks[t].sandboxId, s.clock).value;
    s' := SetTask(s, t, s.tasks[t].(creation := Marked)).(db := marked);
  }

  /** A failed creation can be finished. */
  lemma FinishGoesThrough(run: Run, i: nat, t: nat) returns (s': World)
    requires run.Valid() && i < |run.worlds|
    requires IsCreating(run.worlds[i], t) && run.worlds[i].tasks[t].creation == Gone
    ensures FinishFailedCreation(run.worlds[i], s', t)
  {
    var s := run.worlds[i];
    RunInv(run, i);
    assert TaskFits(s, s.tasks[t]);
    OwnerStands(s, s.tasks[t].sandboxId);
    s' := EndTask(s, t).(db := FinishTx(s.db, s.tasks[t].sandboxId, SandboxStatus.Failed,
                                        FinishedStatus(s.tasks[t].workspaceId !in s.minted), s.clock).value);
  }

  /** A captured revision can be committed, unless its id is taken by another workspace. */
  lemma CommitGoesThrough(run: Run, i: nat, t: nat, revision: string, result: string) returns (s': World)
    requires run.Valid() && i < |run.worlds| && IsSaving(run.worlds[i], t) && !run.worlds[i].tasks[t].failing
    requires var s := run.worlds[i];
             revision in s.db.revisions ==> s.db.revisions[revision].workspaceId == s.tasks[t].workspaceId
    ensures SaveCommit(run.worlds[i], s', t, revision, result)
  {
    var s := run.worlds[i];
    var w, g := s.tasks[t].workspaceId, s.tasks[t].generation;
    RunInv(run, i);
    assert TaskFits(s, s.tasks[t]);
    KindIsKnown(s, w);
    s' := EndTask(s, t).(db := CommitRevisionTx(s.db, w, s.tasks[t].operationId, revision, g, result, s.clock).value,
                         headGeneration := s.headGeneration[w := g]);
  }

  /** A coroutine that has read a head can start the restore of a remote-only workspace. */
  lemma FetchGoesThrough(run: Run, i: nat, t: nat, unused: string) returns (s': World)
    requires run.Valid() && i < |run.worlds| && IsPreparing(run.worlds[i], t)
    requires var s := run.worlds[i];
             s.tasks[t].head.Some? && InStatus(s, s.tasks[t].workspaceId, RemoteOnly) && unused !in s.db.operations
    ensures FetchStart(run.worlds[i], s', t, unused)
  {
    var s := run.worlds[i];
    var w, head := s.tasks[t].workspaceId, s.tasks[t].head.value;
    RunInv(run, i);
    KindIsKnown(s, w);
    var created := CreateOperationTx(s.db, unused, Restore(head), w, None, RestoreKey(w, head), s.clock).value;
    s' := SetTask(s, t, Fetching(w, head)).(db := TransitionTx(created, w, {RemoteOnly}, Restoring, s.clock).value);
  }

  /** So a remote-only workspace whose lock is free can always be prepared, by a fetch of its head. */
  lemma RestoreGoesThrough(run: Run, i: nat, w: string, unused: string) returns (s1: World, s2: World)
    requires run.Valid() && i < |run.worlds|
    requires var s := run.worlds[i];
             s.mode == Serving && LockFree(s, w) && InStatus(s, w, RemoteOnly) && unused !in s.db.operations
    ensures var s := run.worlds[i];
            && PrepareStart(s, s1, w) && FetchStart(s1, s2, s.nextTask, unused)
            && s.db.workspaces[w].head.Some? && InStatus(s2, w, Restoring)
            && s.nextTask in s2.tasks && s2.tasks[s.nextTask] == Fetching(w, s.db.workspaces[w].head.value)
  {
    var s := run.worlds[i];
    RunInv(run, i);
    KindIsKnown(s, w);
    assert IsDurable(w, s.db.workspaces[w], s.headGeneration);
    var head := s.db.workspaces[w].head.value;
    s1 := AddTask(s, Preparing(w, Some(head)));
    var created := CreateOperationTx(s.db, unused, Restore(head), w, None, RestoreKey(w, head), s.clock).value;
    var moved := TransitionTx(created, w, {RemoteOnly}, Restoring, s.clock).value;
    s2 := SetTask(s1, s.nextTask, Fetching(w, head)).(db := moved);
  }

  /** A workspace that is being retired can be deleted. */
  lemma RetireGoesThrough(run: Run, i: nat, t: nat) returns (s': World)
    requires run.Valid() && i < |run.worlds|
    requires t in run.worlds[i].tasks && run.worlds[i].tasks[t].Retiring?
    ensures RetireDelete(run.worlds[i], s', t)
    ensures run.worlds[i].tasks[t].workspaceId !in s'.db.workspaces
  {
    var s := run.worlds[i];
    var w := s.tasks[t].workspaceId;
    RunInv(run, i);
    assert TaskFits(s, s.tasks[t]);
    KindIsKnown(s, w);
    s' := Forget(EndTask(s, t), w).(db := DeleteWorkspaceTx(s.db, w).value);
  }

  // ---------------------------------------------------------------- requests

  /** A workspace is created or found exactly if neither it nor its volume is already something else. */
  lemma CreateIsAnswered(t: Tables, w: string, kind: Kind, volume: string, now: int)
    ensures match CreateWorkspaceTx(t, w, kind, volume, now)
            case Ok(t') =>
              && w in t'.workspaces && t'.workspaces[w].kind == kind && t'.workspaces[w].volume == volume
              && (w in t.workspaces ==> t' == t)
            case Err(Conflict) =>
              w in t.workspaces && !(t.workspaces[w].kind == kind && t.workspaces[w].volume == volume)
            case Err(e) =>
              e == Integrity && w !in t.workspaces
              && exists v :: v in t.workspaces && t.workspaces[v].volume == volume
  {
  }

  /** A renewal is taken exactly for a sandbox that runs. */
  lemma RenewalIsTaken(run: Run, i: nat, b: string, ttl: int)
    requires run.Valid() && i < |run.worlds|
    ensures var s := run.worlds[i];
            (exists s' :: Renew(s, s', b, ttl)) <==>
              s.mode == Serving && b in s.db.sandboxes && s.db.sandboxes[b].status == Live
  {
    var s := run.worlds[i];
    if s.mode == Serving && b in s.db.sandboxes && s.db.sandboxes[b].status == Live {
      assert Renew(s, s.(db := RenewTx(s.db, b, s.clock + ttl).value), b, ttl);
    }
  }

  /** A release is taken exactly for a recoverable workspace, and schedules its deletion. */
  lemma ReleaseIsTaken(run: Run, i: nat, w: string)
    requires run.Valid() && i < |run.worlds|
    ensures var s := run.worlds[i];
            (exists s' :: Release(s, s', w)) <==>
              s.mode == Serving && w in s.db.workspaces && w !in s.minted
  {
    var s := run.worlds[i];
    RunInv(run, i);
    if w in s.db.workspaces {
      KindIsKnown(s, w);
      if s.mode == Serving && w !in s.minted {
        var s' := s.(db := ScheduleDeleteTx(s.db, w, s.clock + s.grace, s.clock).value,
                     releasedAt := s.releasedAt[w := s.clock]);
        assert Release(s, s', w);
      }
    }
  }

  /** A deletion is refused exactly while the workspace is running; then everything of it is gone. */
  lemma DeletionIsTaken(run: Run, i: nat, w: string)
    requires run.Valid() && i < |run.worlds|
    ensures var s := run.worlds[i];
            match DeleteWorkspaceTx(s.db, w)
            case Err(e) => e == Conflict && InStatus(s, w, Running)
            case Ok(t) =>
              && !InStatus(s, w, Running) && w !in t.workspaces
              && (forall b :: b in t.sandboxes ==> t.sandboxes[b].workspaceId != w)
              && (forall o :: o in t.operations ==> t.operations[o].workspaceId != w)
              && (w in s.db.workspaces ==> forall v :: v in t.revisions ==> t.revisions[v].workspaceId != w)
  {
    var s := run.worlds[i];
    RunInv(run, i);
    if w in s.db.workspaces {
      KindIsKnown(s, w);
    } else {
      forall b | b in s.db.sandboxes ensures s.db.sandboxes[b].workspaceId != w {
        OwnerStands(s, b);
      }
      forall o | o in s.db.operations ensures s.db.operations[o].workspaceId != w {
        assert OperationFits(s.db.operations[o], s.db.workspaces);
      }
    }
  }
}
