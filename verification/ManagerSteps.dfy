/** Every step of the Manager keeps its invariant. */
module ManagerSteps {
  import opened Prelude
  import opened StateTables
  import opened OperationKeys
  import opened ManagerProtocol
  import opened ManagerInvariant
  import opened ManagerTransactions

  // ---------------------------------------------------------------- containers and records

  /** Containers and records may go; nothing else changes. */
  lemma LoseInv(s: World, s': World)
    requires Inv(s)
    requires s' == s.(containers := s'.containers, records := s'.records)
    requires forall b :: b in s'.containers ==> b in s.containers && s'.containers[b] == s.containers[b]
    requires forall b :: b in s'.records ==> b in s.records && s'.records[b] == s.records[b] && AdoptedFits(s', b)
    ensures Inv(s')
  {
    forall b | b in s'.containers
      ensures IsWriterOf(b, s'.containers[b], s'.db.sandboxes)
    {
      assert IsWriterOf(b, s.containers[b], s.db.sandboxes);
    }
    forall t | t in s.tasks
      ensures TaskFits(s', s.tasks[t])
    {
      assert TaskFits(s, s.tasks[t]);
    }
  }

  /** The new Worker belongs to the live row that its coroutine inserted. */
  lemma CreateContainerInv(s: World, s': World, t: nat)
    requires Inv(s) && CreateContainer(s, s', t)
    ensures Inv(s')
  {
    CreateContainerTasks(s, s', t);
    assert TaskFits(s, s.tasks[t]);
    forall c | c in s'.containers
      ensures IsWriterOf(c, s'.containers[c], s'.db.sandboxes)
    {
      assert c in s.containers ==> IsWriterOf(c, s.containers[c], s.db.sandboxes);
    }
    assert StoreInv(s');
  }

  lemma CreateContainerTasks(s: World, s': World, t: nat)
    requires TasksFit(s) && CreateContainer(s, s', t)
    ensures TasksFit(s')
  {
    assert TaskFits(s, s.tasks[t]);
    assert TaskFits(s', s'.tasks[t]);
    forall u | u in s.tasks && u != t
      ensures TaskFits(s', s.tasks[u])
      ensures Apart(s'.tasks[t], s.tasks[u]) && Apart(s.tasks[u], s'.tasks[t])
    {
      assert Apart(s.tasks[t], s.tasks[u]) && Apart(s.tasks[u], s.tasks[t]);
      OtherContainer(s, s', s.tasks[u], s.tasks[t].sandboxId);
    }
  }

  /** A coroutine does not depend on the container of another sandbox. */
  lemma OtherContainer(s: World, s': World, task: Task, b: string)
    requires TaskFits(s, task)
    requires s' == s.(tasks := s'.tasks, containers := s'.containers)
    requires s'.containers.Keys <= s.containers.Keys + {b}
    requires task.Creating? || task.Terminating? ==> task.sandboxId != b
    ensures TaskFits(s', task)
  {
  }

  lemma MarkRunningInv(s: World, s': World, t: nat)
    requires Inv(s) && MarkRunning(s, s', t)
    ensures Inv(s')
  {
    assert TaskFits(s, s.tasks[t]);
    var s1 := SetTask(s, t, s.tasks[t].(creation := Marked));
    SetTaskInv(s, t, s.tasks[t].(creation := Marked));
    assert forall u :: u in s.tasks && u != t ==> Apart(s.tasks[t], s.tasks[u]);
    MarkRunningTxInv(s1, s', s.tasks[t].sandboxId);
  }

  lemma KeepRecordInv(s: World, s': World, t: nat)
    requires Inv(s) && KeepRecord(s, s', t)
    ensures Inv(s')
  {
    assert TaskFits(s, s.tasks[t]);
    EndTaskInv(s, t);
    var s1 := EndTask(s, t);
    AddRecordInv(s1, s', s.tasks[t].sandboxId, s.tasks[t].workspaceId) by {
      assert forall u :: u in s1.tasks ==> Apart(s.tasks[t], s.tasks[u]);
    }
  }

  lemma AddRecordInv(s: World, s': World, b: string, w: string)
    requires Inv(s) && s' == s.(records := s.records[b := RecordOf(s, w)])
    requires RecordFits(s, b, w, w !in s.minted) && AdoptedFits(s, b)
    requires forall u :: u in s.tasks && s.tasks[u].Creating? ==> s.tasks[u].sandboxId != b
    ensures Inv(s')
  {
    forall u | u in s'.tasks
      ensures TaskFits(s', s'.tasks[u])
    {
      assert TaskFits(s, s.tasks[u]);
    }
  }

  lemma AbandonContainerInv(s: World, s': World, t: nat)
    requires Inv(s) && AbandonContainer(s, s', t)
    ensures Inv(s')
  {
    assert TaskFits(s, s.tasks[t]);
    var s1 := s.(containers := s.containers - {s.tasks[t].sandboxId});
    LoseInv(s, s1);
    assert TaskFits(s1, s1.tasks[t]);
    SetTaskInv(s1, t, s.tasks[t].(creation := Gone));
    assert s' == SetTask(s1, t, s.tasks[t].(creation := Gone));
  }

  lemma FinishFailedCreationInv(s: World, s': World, t: nat)
    requires Inv(s) && FinishFailedCreation(s, s', t)
    ensures Inv(s')
  {
    var task := s.tasks[t];
    assert TaskFits(s, task);
    EndTaskInv(s, t);
    var s1 := EndTask(s, t);
    assert forall u :: u in s1.tasks ==> Apart(s.tasks[t], s.tasks[u]);
    FinishInv(s1, s', task.sandboxId, task.workspaceId, SandboxStatus.Failed, task.workspaceId !in s.minted);
  }

  // ---------------------------------------------------------------- terminate

  lemma TerminateStartInv(s: World, s': World, b: string)
    requires Inv(s) && TerminateStart(s, s', b)
    ensures Inv(s')
  {
    var task := Terminating(b, s.records[b].workspaceId, s.records[b].recoverable, Removing);
    assert RecordFits(s, b, s.records[b].workspaceId, s.records[b].recoverable);
    forall u | u in s.tasks
      ensures Apart(task, s.tasks[u]) && Apart(s.tasks[u], task)
    {
      assert TaskFits(s, s.tasks[u]);
    }
    AddTaskInv(s, task);
  }

  lemma TerminateRemoveInv(s: World, s': World, t: nat)
    requires Inv(s) && TerminateRemove(s, s', t)
    ensures Inv(s')
  {
    var s1 := s.(containers := s.containers - {s.tasks[t].sandboxId});
    LoseInv(s, s1);
    assert TaskFits(s1, s1.tasks[t]);
    SetTaskInv(s1, t, s.tasks[t].(phase := Removed));
    assert s' == SetTask(s1, t, s.tasks[t].(phase := Removed));
  }

  lemma TerminatePopInv(s: World, s': World, t: nat)
    requires Inv(s) && TerminatePop(s, s', t)
    ensures Inv(s')
  {
    var s1 := s.(records := s.records - {s.tasks[t].sandboxId});
    LoseInv(s, s1);
    assert TaskFits(s1, s1.tasks[t]);
    SetTaskInv(s1, t, s.tasks[t].(phase := Popped));
    assert s' == SetTask(s1, t, s.tasks[t].(phase := Popped));
  }

  lemma TerminateFinishInv(s: World, s': World, t: nat)
    requires Inv(s) && TerminateFinish(s, s', t)
    ensures Inv(s')
  {
    var task := s.tasks[t];
    assert TaskFits(s, task);
    EndTaskInv(s, t);
    var s1 := EndTask(s, t);
    assert forall u :: u in s1.tasks ==> Apart(s.tasks[u], s.tasks[t]);
    if FinishTx(s.db, task.sandboxId, Terminated, FinishedStatus(task.recoverable), s.clock).Ok? {
      FinishInv(s1, s', task.sandboxId, task.workspaceId, Terminated, task.recoverable);
    }
  }

  // ---------------------------------------------------------------- workspaces

  lemma CreateRecoverableInv(s: World, s': World, w: string, volume: string)
    requires Inv(s) && CreateRecoverable(s, s', w, volume)
    ensures Inv(s')
  {
    if w in s.db.workspaces {
      assert s.known + {w} == s.known;
      assert s' == s;
    } else {
      CreateWorkspaceInv(s, s', w, Recoverable, volume);
    }
  }

  lemma DeleteEphemeralInv(s: World, s': World, w: string)
    requires Inv(s) && DeleteEphemeral(s, s', w)
    ensures Inv(s')
  {
    forall t | t in s.tasks && HoldsLock(s.tasks[t], w)
      ensures s.tasks[t].Preparing? && s.tasks[t].head.None?
    {
      assert TaskFits(s, s.tasks[t]);
      assert w in s.db.workspaces ==> KindFits(s.db.workspaces[w], true);
    }
    DeleteWorkspaceInv(s, s', w);
  }

  // ---------------------------------------------------------------- checkpoint

  lemma SaveStartInv(s: World, s': World, w: string, o: string)
    requires Inv(s) && SaveStart(s, s', w, o)
    ensures Inv(s')
  {
    var g := s.db.workspaces[w].generation;
    var key := CheckpointKey(w, g);
    var s1 := s.(db := CreateOperationTx(s.db, o, Checkpoint(g), w, None, key, s.clock).value);
    CreateOperationInv(s, s1, o, Checkpoint(g), w, None, key);
    SaveEnterInv(s1, s', w, o);
  }

  lemma SaveEnterInv(s: World, s': World, w: string, o: string)
    requires Inv(s) && s.mode == Serving && LockFree(s, w) && InStatus(s, w, DetachedDirty)
    requires Holds(s.db, o, CheckpointKey(w, s.db.workspaces[w].generation))
    requires var r := TransitionTx(s.db, w, {DetachedDirty}, Checkpointing, s.clock);
             && r.Ok?
             && s' == AddTask(s, Saving(w, s.db.workspaces[w].generation, o, false)).(db := r.value)
    ensures Inv(s')
  {
    var s1 := s.(db := s'.db);
    var g := s.db.workspaces[w].generation;
    TransitionInv(s, s1, w, {DetachedDirty}, Checkpointing);
    assert OperationFits(s.db.operations[o], s.db.workspaces);
    CheckpointKeyOwner(s.db.operations[o], w, g);
    AddLockedTaskInv(s1, Saving(w, g, o, false));
    assert s' == AddTask(s1, Saving(w, g, o, false));
  }

  lemma SaveRunningInv(s: World, s': World, t: nat)
    requires Inv(s) && SaveRunning(s, s', t)
    ensures Inv(s')
  {
    UpdateOperationInv(s, s', s.tasks[t].operationId, InProgress, None, None, None);
  }

  lemma SaveCommitInv(s: World, s': World, t: nat, revision: string, result: string)
    requires Inv(s) && SaveCommit(s, s', t, revision, result)
    ensures Inv(s')
  {
    var task := s.tasks[t];
    var w, o := task.workspaceId, task.operationId;
    assert TaskFits(s, task);
    EndTaskInv(s, t);
    var s1 := EndTask(s, t);
    var s2 := s1.(db := s1.db.(workspaces := s'.db.workspaces), headGeneration := s'.headGeneration);
    CommitRowInv(s1, s2, w, revision);
    var s3 := s2.(db := s2.db.(operations := s'.db.operations));
    assert OperationFits(s1.db.operations[o], s1.db.workspaces);
    UpdateOperationInv(s2, s3, o, Succeeded, s.db.operations[o].phase, Some(result), None);
    assert s' == s3.(db := s3.db.(revisions := s'.db.revisions));
    RevisionsInv(s3, s');
  }

  /** The new head is committed at the current generation. */
  lemma CommitRowInv(s: World, s': World, w: string, revision: string)
    requires Inv(s) && LockFree(s, w) && InStatus(s, w, Checkpointing)
    requires s' == s.(db := s.db.(workspaces := s.db.workspaces[w :=
                        s.db.workspaces[w].(head := Some(revision), status := DetachedClean, updatedAt := s.clock)]),
                      headGeneration := s.headGeneration[w := s.db.workspaces[w].generation])
    ensures Inv(s')
  {
    assert KindFits(s.db.workspaces[w], w in s.minted);
    assert ScheduleFits(w, s.db.workspaces[w], s.releasedAt, s.grace);
    assert RowChange(s, s', w);
    assert RowSound(s, s', w);
    RowChangeInv(s, s', w);
  }

  /** Nothing in the invariant depends on the revisions, the nonces or the clock. */
  lemma RevisionsInv(s: World, s': World)
    requires Inv(s)
    requires s' == s.(clock := s'.clock, db := s.db.(revisions := s'.db.revisions, nonces := s'.db.nonces))
    ensures Inv(s')
  {
    forall t | t in s'.tasks
      ensures TaskFits(s', s'.tasks[t])
    {
      assert TaskFits(s, s.tasks[t]);
    }
  }

  lemma SaveFailInv(s: World, s': World, t: nat, error: string)
    requires Inv(s) && SaveFail(s, s', t, error)
    ensures Inv(s')
  {
    var task := s.tasks[t];
    var r := UpdateOperationTx(s.db, task.operationId, OperationStatus.Failed, None, None, Some(error), s.clock);
    var s1 := s.(db := if r.Ok? then r.value else s.db);
    if r.Ok? {
      UpdateOperationInv(s, s1, task.operationId, OperationStatus.Failed, None, None, Some(error));
    }
    assert TaskFits(s1, s1.tasks[t]);
    SetTaskInv(s1, t, task.(failing := true));
    assert s' == SetTask(s1, t, task.(failing := true));
  }

  /** A coroutine that gives up its lock with one last transition, if that succeeds. */
  lemma LastTransitionInv(s: World, s': World, t: nat, expected: set<WorkspaceStatus>, to: WorkspaceStatus)
    requires Inv(s) && t in s.tasks && HoldsLock(s.tasks[t], s.tasks[t].workspaceId)
    requires var r := TransitionTx(s.db, s.tasks[t].workspaceId, expected, to, s.clock);
             && s' == EndTask(s, t).(db := if r.Ok? then r.value else s.db)
    requires forall from :: from in expected ==> Move(from, to)
    requires to == RemoteOnly ==> HasHead(s, s.tasks[t].workspaceId)
    requires to != Deleting
    ensures Inv(s')
  {
    EndTaskInv(s, t);
    var s1 := EndTask(s, t);
    var w := s.tasks[t].workspaceId;
    if TransitionTx(s.db, w, expected, to, s.clock).Ok? {
      TransitionInv(s1, s', w, expected, to);
    }
  }

  lemma SaveRevertInv(s: World, s': World, t: nat)
    requires Inv(s) && SaveRevert(s, s', t)
    ensures Inv(s')
  {
    LastTransitionInv(s, s', t, {Checkpointing}, DetachedDirty);
  }

  lemma ReportCleanInv(s: World, s': World, w: string, o: string, result: string)
    requires Inv(s) && ReportClean(s, s', w, o, result)
    ensures Inv(s')
  {
    UpdateOperationInv(s, s', o, Succeeded, None, Some(result), None);
  }

  lemma OpenCheckpointInv(s: World, s': World, w: string, o: string)
    requires Inv(s) && OpenCheckpoint(s, s', w, o)
    ensures Inv(s')
  {
    var g := s.db.workspaces[w].generation;
    CreateOperationInv(s, s', o, Checkpoint(g), w, None, CheckpointKey(w, g));
  }

  // ---------------------------------------------------------------- prepare, evict, retire

  lemma PrepareDemoteInv(s: World, s': World, t: nat)
    requires Inv(s) && PrepareDemote(s, s', t)
    ensures Inv(s')
  {
    var w := s.tasks[t].workspaceId;
    assert TaskFits(s, s.tasks[t]);
    LockHolderAlone(s, t, w);
    TransitionInv(s, s', w, {DetachedClean}, RemoteOnly);
  }

  lemma LockHolderAlone(s: World, t: nat, w: string)
    requires TasksFit(s) && t in s.tasks && HoldsLock(s.tasks[t], w)
    ensures forall u :: u in s.tasks && HoldsLock(s.tasks[u], w) ==> u == t
  {
    forall u | u in s.tasks && u != t
      ensures !HoldsLock(s.tasks[u], w)
    {
      assert Apart(s.tasks[t], s.tasks[u]);
    }
  }

  lemma FetchStartInv(s: World, s': World, t: nat, o: string)
    requires Inv(s) && FetchStart(s, s', t, o)
    ensures Inv(s')
  {
    var task := s.tasks[t];
    var w, head := task.workspaceId, task.head.value;
    var key := RestoreKey(w, head);
    var s1 := s.(db := CreateOperationTx(s.db, o, Restore(head), w, None, key, s.clock).value);
    CreateOperationInv(s, s1, o, Restore(head), w, None, key);
    FetchEnterInv(s1, s', t, w, head);
  }

  lemma FetchEnterInv(s: World, s': World, t: nat, w: string, head: string)
    requires Inv(s) && t in s.tasks && s.tasks[t] == Preparing(w, Some(head))
    requires var r := TransitionTx(s.db, w, {RemoteOnly}, Restoring, s.clock);
             r.Ok? && s' == SetTask(s, t, Fetching(w, head)).(db := r.value)
    ensures Inv(s')
  {
    var s1 := s.(db := s'.db);
    LockHolderAlone(s, t, w);
    TransitionInv(s, s1, w, {RemoteOnly}, Restoring);
    assert TaskFits(s, s.tasks[t]);
    SetTaskInv(s1, t, Fetching(w, head));
    assert s' == SetTask(s1, t, Fetching(w, head));
  }

  lemma FetchEndInv(s: World, s': World, t: nat, fetched: bool)
    requires Inv(s) && FetchEnd(s, s', t, fetched)
    ensures Inv(s')
  {
    var w := s.tasks[t].workspaceId;
    assert TaskFits(s, s.tasks[t]);
    assert IsDurable(w, s.db.workspaces[w], s.headGeneration);
    LastTransitionInv(s, s', t, {Restoring}, if fetched then DetachedClean else RemoteOnly);
  }

  lemma EvictEndInv(s: World, s': World, t: nat)
    requires Inv(s) && EvictEnd(s, s', t)
    ensures Inv(s')
  {
    assert TaskFits(s, s.tasks[t]);
    LastTransitionInv(s, s', t, {DetachedClean}, RemoteOnly);
  }

  lemma PrepareStartInv(s: World, s': World, w: string)
    requires Inv(s) && PrepareStart(s, s', w)
    ensures Inv(s')
  {
    AddLockedTaskInv(s, Preparing(w, s.db.workspaces[w].head));
  }

  lemma EvictStartInv(s: World, s': World, w: string)
    requires Inv(s) && EvictStart(s, s', w)
    ensures Inv(s')
  {
    AddLockedTaskInv(s, Evicting(w));
  }

  lemma RetireStartInv(s: World, s': World, w: string, o: string)
    requires Inv(s) && RetireStart(s, s', w, o)
    ensures Inv(s')
  {
    var s1 := s.(db := CreateOperationTx(s.db, o, Retire, w, None, RetireKey(w), s.clock).value);
    RetireOpenInv(s, s1, w, o);
    if s.db.workspaces[w].status == Deleting {
      assert s' == AddTask(s1, Retiring(w));
      RetireAgainInv(s1, w);
    } else {
      RetireEnterInv(s1, s', w);
    }
  }

  lemma RetireOpenInv(s: World, s': World, w: string, o: string)
    requires Inv(s) && w in s.db.workspaces
    requires var r := CreateOperationTx(s.db, o, Retire, w, None, RetireKey(w), s.clock);
             r.Ok? && s' == s.(db := r.value)
    ensures Inv(s') && s'.db.workspaces == s.db.workspaces
  {
    CreateOperationInv(s, s', o, Retire, w, None, RetireKey(w));
  }

  lemma RetireAgainInv(s: World, w: string)
    requires Inv(s) && s.mode == Serving && LockFree(s, w)
    requires InStatus(s, w, Deleting) && s.db.workspaces[w].deleteAfter.Some?
    ensures Inv(AddTask(s, Retiring(w)))
  {
    assert KindFits(s.db.workspaces[w], w in s.minted);
    AddLockedTaskInv(s, Retiring(w));
  }

  lemma RetireEnterInv(s: World, s': World, w: string)
    requires Inv(s) && s.mode == Serving && LockFree(s, w)
    requires w in s.db.workspaces && s.db.workspaces[w].deleteAfter.Some?
    requires var r := TransitionTx(s.db, w, {DetachedClean, RemoteOnly}, Deleting, s.clock);
             r.Ok? && s' == AddTask(s, Retiring(w)).(db := r.value)
    ensures Inv(s')
  {
    var s1 := s.(db := s'.db);
    assert KindFits(s.db.workspaces[w], w in s.minted);
    TransitionInv(s, s1, w, {DetachedClean, RemoteOnly}, Deleting);
    RetireAgainInv(s1, w);
    assert s' == AddTask(s1, Retiring(w));
  }

  lemma RetireDeleteInv(s: World, s': World, t: nat)
    requires Inv(s) && RetireDelete(s, s', t)
    ensures Inv(s')
  {
    EndTaskInv(s, t);
    DeleteWorkspaceInv(EndTask(s, t), s', s.tasks[t].workspaceId);
  }

  lemma AbandonInv(s: World, s': World, t: nat)
    requires Inv(s) && Abandon(s, s', t)
    ensures Inv(s')
  {
    EndTaskInv(s, t);
  }

  // ---------------------------------------------------------------- startup

  lemma AdoptInv(s: World, s': World, b: string)
    requires Inv(s) && Adopt(s, s', b)
    ensures Inv(s')
  {
    var w := s.db.sandboxes[b].workspaceId;
    assert RowFits(b, s.db.sandboxes[b], s.db.workspaces);
    var s1 := s.(db := s'.db);
    if s.db.sandboxes[b].status == SandboxStatus.Starting {
      MarkRunningTxInv(s, s1, b);
    }
    AddRecordInv(s1, s', b, w);
  }

  lemma DiscardInv(s: World, s': World, b: string)
    requires Inv(s) && Discard(s, s', b)
    ensures Inv(s')
  {
    LoseInv(s, s');
  }

  lemma FinishLostInv(s: World, s': World, b: string)
    requires Inv(s) && FinishLost(s, s', b)
    ensures Inv(s')
  {
    var w := s.db.sandboxes[b].workspaceId;
    FinishInv(s, s', b, w, SandboxStatus.Failed, w !in s.minted);
  }

  lemma FailInterruptedInv(s: World, s': World, o: string, phase: Option<string>, error: string)
    requires Inv(s) && FailInterrupted(s, s', o, phase, error)
    ensures Inv(s')
  {
    UpdateOperationInv(s, s', o, OperationStatus.Failed, phase, s.db.operations[o].result, Some(error));
  }

  lemma RevertInterruptedInv(s: World, s': World, w: string, from: WorkspaceStatus)
    requires Inv(s) && RevertInterrupted(s, s', w, from)
    ensures Inv(s')
  {
    assert IsDurable(w, s.db.workspaces[w], s.headGeneration);
    TransitionInv(s, s', w, {from}, if from == Checkpointing then DetachedDirty else RemoteOnly);
  }

  lemma CrashInv(s: World, s': World)
    requires Inv(s) && Crash(s, s')
    ensures Inv(s')
  {
  }

  lemma ServeInv(s: World, s': World)
    requires Inv(s) && Serve(s, s')
    ensures Inv(s')
  {
  }

  // ---------------------------------------------------------------- all steps, all runs

  lemma LifecycleNextInv(s: World, step: Step, s': World)
    requires Inv(s) && LifecycleNext(s, step, s')
    ensures Inv(s')
  {
    if step.DoCreateRecoverable? {
      CreateRecoverableInv(s, s', step.w, step.volume);
    } else if step.DoMintEphemeral? {
      CreateWorkspaceInv(s, s', step.w, Ephemeral, step.volume);
    } else if step.DoDeleteEphemeral? {
      DeleteEphemeralInv(s, s', step.w);
    } else if step.DoRelease? {
      ReleaseInv(s, s', step.w);
    }
  }

  lemma CreateNextInv(s: World, step: Step, s': World)
    requires Inv(s) && CreateNext(s, step, s')
    ensures Inv(s')
  {
    if step.DoClaim? {
      ClaimInv(s, s', step.w, step.sandboxId, step.host, step.ttl);
    } else if step.DoCreateContainer? {
      CreateContainerInv(s, s', step.t);
    } else if step.DoMarkRunning? {
      MarkRunningInv(s, s', step.t);
    } else if step.DoKeepRecord? {
      KeepRecordInv(s, s', step.t);
    } else if step.DoAbandonContainer? {
      AbandonContainerInv(s, s', step.t);
    } else if step.DoFinishFailedCreation? {
      FinishFailedCreationInv(s, s', step.t);
    }
  }

  lemma TerminateNextInv(s: World, step: Step, s': World)
    requires Inv(s) && TerminateNext(s, step, s')
    ensures Inv(s')
  {
    if step.DoTerminateStart? {
      TerminateStartInv(s, s', step.sandboxId);
    } else if step.DoTerminateRemove? {
      TerminateRemoveInv(s, s', step.t);
    } else if step.DoTerminatePop? {
      TerminatePopInv(s, s', step.t);
    } else if step.DoTerminateFinish? {
      TerminateFinishInv(s, s', step.t);
    } else if step.DoRenew? {
      RenewInv(s, s', step.sandboxId, step.ttl);
    }
  }

  lemma RequestNextInv(s: World, step: Step, s': World)
    requires Inv(s) && RequestNext(s, step, s')
    ensures Inv(s')
  {
    if step.DoTick? {
      RevisionsInv(s, s');
    } else if step.DoOpenOther? {
      CreateOperationInv(s, s', step.o, step.op.request, step.op.workspaceId, step.op.sandboxId, step.op.key);
    } else if step.DoUpdateOther? {
      UpdateOperationInv(s, s', step.o, step.op.status, step.op.phase, step.op.result, step.op.error);
    } else if step.DoConsumeNonce? {
      RevisionsInv(s, s');
    } else if step.DoOpenCheckpoint? {
      OpenCheckpointInv(s, s', step.w, step.o);
    } else if step.DoReportClean? {
      ReportCleanInv(s, s', step.w, step.o, step.result);
    } else if step.DoRetryCheckpoint? {
      UpdateOperationInv(s, s', step.o, Pending, s.db.operations[step.o].phase, s.db.operations[step.o].result, None);
    }
  }

  lemma SaveNextInv(s: World, step: Step, s': World)
    requires Inv(s) && SaveNext(s, step, s')
    ensures Inv(s')
  {
    if step.DoSaveStart? {
      SaveStartInv(s, s', step.w, step.o);
    } else if step.DoSaveRunning? {
      SaveRunningInv(s, s', step.t);
    } else if step.DoSaveCommit? {
      SaveCommitInv(s, s', step.t, step.revision, step.result);
    } else if step.DoSaveFail? {
      SaveFailInv(s, s', step.t, step.error);
    } else if step.DoSaveRevert? {
      SaveRevertInv(s, s', step.t);
    }
  }

  lemma RestoreNextInv(s: World, step: Step, s': World)
    requires Inv(s) && RestoreNext(s, step, s')
    ensures Inv(s')
  {
    if step.DoPrepareStart? {
      PrepareStartInv(s, s', step.w);
    } else if step.DoPrepareDemote? {
      PrepareDemoteInv(s, s', step.t);
    } else if step.DoFetchStart? {
      FetchStartInv(s, s', step.t, step.o);
    } else if step.DoFetchEnd? {
      FetchEndInv(s, s', step.t, step.fetched);
    }
  }

  lemma RetainNextInv(s: World, step: Step, s': World)
    requires Inv(s) && RetainNext(s, step, s')
    ensures Inv(s')
  {
    if step.DoEvictStart? {
      EvictStartInv(s, s', step.w);
    } else if step.DoEvictEnd? {
      EvictEndInv(s, s', step.t);
    } else if step.DoRetireStart? {
      RetireStartInv(s, s', step.w, step.o);
    } else if step.DoRetireDelete? {
      RetireDeleteInv(s, s', step.t);
    } else if step.DoAbandon? {
      AbandonInv(s, s', step.t);
    }
  }

  lemma StartupNextInv(s: World, step: Step, s': World)
    requires Inv(s) && StartupNext(s, step, s')
    ensures Inv(s')
  {
    if step.DoCrash? {
      CrashInv(s, s');
    } else if step.DoAdopt? {
      AdoptInv(s, s', step.sandboxId);
    } else if step.DoDiscard? {
      DiscardInv(s, s', step.sandboxId);
    } else if step.DoFinishLost? {
      FinishLostInv(s, s', step.sandboxId);
    } else if step.DoFailInterrupted? {
      FailInterruptedInv(s, s', step.o, step.phase, step.error);
    } else if step.DoRevertInterrupted? {
      RevertInterruptedInv(s, s', step.w, step.from);
    } else if step.DoServe? {
      ServeInv(s, s');
    }
  }

  /** The invariant is inductive. */
  lemma NextInv(s: World, step: Step, s': World)
    requires Inv(s) && Next(s, step, s')
    ensures Inv(s')
  {
    if LifecycleNext(s, step, s') {
      LifecycleNextInv(s, step, s');
    } else if CreateNext(s, step, s') {
      CreateNextInv(s, step, s');
    } else if TerminateNext(s, step, s') {
      TerminateNextInv(s, step, s');
    } else if RequestNext(s, step, s') {
      RequestNextInv(s, step, s');
    } else if SaveNext(s, step, s') {
      SaveNextInv(s, step, s');
    } else if RestoreNext(s, step, s') {
      RestoreNextInv(s, step, s');
    } else if RetainNext(s, step, s') {
      RetainNextInv(s, step, s');
    } else if StartupNext(s, step, s') {
      StartupNextInv(s, step, s');
    }
  }

  /** Every world of every run satisfies the invariant. */
  lemma {:induction false} RunInv(run: Run, i: nat)
    requires run.Valid() && i < |run.worlds|
    ensures Inv(run.worlds[i])
  {
    if i == 0 {
      InitInv(run.worlds[0]);
    } else {
      RunInv(run, i - 1);
      assert run.StepAt(i - 1);
      NextInv(run.worlds[i - 1], run.steps[i - 1], run.worlds[i]);
    }
  }
}
