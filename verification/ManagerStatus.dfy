/**
  The life of a workspace row as one table: which step moves it from which status to which, and
  what that means for restores, evictions and leases over whole runs.
 */
module ManagerStatus {
  import opened Prelude
  import opened StateTables
  import opened OperationKeys
  import opened ManagerProtocol
  import opened ManagerInvariant
  import opened ManagerSteps

  // ---------------------------------------------------------------- the table

  predicate WorksOn(s: World, t: nat, w: string) {
    t in s.tasks && HoldsLock(s.tasks[t], w)
  }

  /** What happens to a row: a claim, the end of its writer, or a move of the storage protocol. */
  function StatusAfter(s: World, step: Step, w: string): WorkspaceStatus
    requires w in s.db.workspaces
  {
    var row := s.db.workspaces[w];
    if step.DoClaim? && step.w == w then Running
    else if row.active.Some? && Ended(s, step) == row.active then
      if row.kind == Recoverable then DetachedDirty else Deleting
    else if step.DoSaveStart? && step.w == w then Checkpointing
    else if step.DoSaveCommit? && WorksOn(s, step.t, w) then DetachedClean
    else if step.DoSaveRevert? && WorksOn(s, step.t, w) then DetachedDirty
    else if step.DoPrepareDemote? && WorksOn(s, step.t, w) then RemoteOnly
    else if step.DoFetchStart? && WorksOn(s, step.t, w) then Restoring
    else if step.DoFetchEnd? && WorksOn(s, step.t, w) then
      if step.fetched then DetachedClean else RemoteOnly
    else if step.DoEvictEnd? && WorksOn(s, step.t, w) && row.status == DetachedClean then RemoteOnly
    else if step.DoRetireStart? && step.w == w then Deleting
    else if step.DoRevertInterrupted? && step.w == w then
      if step.from == Restoring then RemoteOnly else DetachedDirty
    else row.status
  }

  /** The statuses from which a step moves a row. */
  predicate LegalMove(step: Step, from: WorkspaceStatus) {
    && (step.DoClaim? ==> from in {DetachedClean, DetachedDirty, RemoteOnly})
    && (step.DoFinishFailedCreation? || step.DoTerminateFinish? || step.DoFinishLost? ==> from == Running)
    && (step.DoSaveStart? ==> from == DetachedDirty)
    && (step.DoSaveCommit? || step.DoSaveRevert? ==> from == Checkpointing)
    && (step.DoPrepareDemote? || step.DoEvictEnd? ==> from == DetachedClean)
    && (step.DoFetchStart? ==> from == RemoteOnly)
    && (step.DoFetchEnd? ==> from == Restoring)
    && (step.DoRetireStart? ==> from in {DetachedClean, RemoteOnly})
    && (step.DoRevertInterrupted? ==> from == step.from && from in {Checkpointing, Restoring})
  }

  function HeadAfter(s: World, step: Step, w: string): Option<string>
    requires w in s.db.workspaces
  {
    if step.DoSaveCommit? && WorksOn(s, step.t, w) then Some(step.revision) else s.db.workspaces[w].head
  }

  /** A row follows the table; a claim starts its next generation; any change is dated. */
  predicate RowFollows(s: World, step: Step, w: string, before: Workspace, row: Workspace)
    requires w in s.db.workspaces
  {
    && row.head == HeadAfter(s, step, w)
    && row.status == StatusAfter(s, step, w) && (row.status != before.status ==> LegalMove(step, before.status))
    && row.generation == before.generation + (if step.DoClaim? && step.w == w then 1 else 0)
    && row.kind == before.kind && row.volume == before.volume && row.createdAt == before.createdAt
    && (row == before || row.updatedAt == s.clock)
  }

  /** Rows are created clean and empty, and go by deletion only. */
  predicate RowExists(s: World, step: Step, s': World, w: string) {
    && (w in s'.db.workspaces && w !in s.db.workspaces ==>
          && (|| (step.DoCreateRecoverable? && s'.db.workspaces[w].kind == Recoverable)
              || (step.DoMintEphemeral? && s'.db.workspaces[w].kind == Ephemeral))
          && step.w == w
          && s'.db.workspaces[w].status == DetachedClean && s'.db.workspaces[w].generation == 0
          && s'.db.workspaces[w].head == None && s'.db.workspaces[w].active == None
          && s'.db.workspaces[w].updatedAt == s.clock && s'.db.workspaces[w].volume == step.volume)
    && (w in s.db.workspaces && w !in s'.db.workspaces ==>
          || (step == DoDeleteEphemeral(w) && s.db.workspaces[w].kind == Ephemeral)
          || (step.DoRetireDelete? && step.t in s.tasks && s.tasks[step.t] == Retiring(w)))
  }

  ghost predicate RowStep(s: World, step: Step, s': World, w: string) {
    && RowExists(s, step, s', w)
    && (w in s.db.workspaces && w in s'.db.workspaces ==>
          RowFollows(s, step, w, s.db.workspaces[w], s'.db.workspaces[w]))
  }

  // ---------------------------------------------------------------- one step

  /** Steps that leave the workspaces alone. */
  lemma QuietRow(s: World, step: Step, s': World, w: string)
    requires s'.db.workspaces == s.db.workspaces
    requires w in s.db.workspaces ==> StatusAfter(s, step, w) == s.db.workspaces[w].status
    requires !step.DoClaim? && !step.DoSaveCommit?
    ensures RowStep(s, step, s', w)
  {
  }

  /** The steps that may move a status. */
  predicate MayMove(step: Step) {
    || step.DoClaim? || step.DoFinishFailedCreation? || step.DoTerminateFinish? || step.DoFinishLost?
    || step.DoSaveStart? || step.DoSaveCommit? || step.DoSaveRevert?
    || step.DoPrepareDemote? || step.DoFetchStart? || step.DoFetchEnd?
    || step.DoEvictEnd? || step.DoRetireStart? || step.DoRevertInterrupted?
  }

  lemma StillRow(s: World, step: Step, s': World, w: string)
    requires s'.db.workspaces == s.db.workspaces && !MayMove(step)
    ensures RowStep(s, step, s', w)
  {
    QuietRow(s, step, s', w);
  }

  // Steps that do not touch the workspace table.

  lemma CreateStill(s: World, step: Step, s': World)
    requires CreateNext(s, step, s') && !MayMove(step) && !step.DoMarkRunning?
    ensures s'.db.workspaces == s.db.workspaces
  {
  }

  lemma TerminateStill(s: World, step: Step, s': World)
    requires TerminateNext(s, step, s') && !MayMove(step)
    ensures s'.db.workspaces == s.db.workspaces
  {
  }

  lemma RequestStill(s: World, step: Step, s': World)
    requires RequestNext(s, step, s') && !MayMove(step)
    ensures s'.db.workspaces == s.db.workspaces
  {
  }

  lemma SaveStill(s: World, step: Step, s': World)
    requires SaveNext(s, step, s') && !MayMove(step)
    ensures s'.db.workspaces == s.db.workspaces
  {
  }

  lemma RestoreStill(s: World, step: Step, s': World)
    requires RestoreNext(s, step, s') && !MayMove(step)
    ensures s'.db.workspaces == s.db.workspaces
  {
  }

  lemma RetainStill(s: World, step: Step, s': World)
    requires RetainNext(s, step, s') && !MayMove(step) && !step.DoRetireDelete?
    ensures s'.db.workspaces == s.db.workspaces
  {
  }

  lemma StartupStill(s: World, step: Step, s': World)
    requires StartupNext(s, step, s') && !MayMove(step) && !step.DoAdopt?
    ensures s'.db.workspaces == s.db.workspaces
  {
  }

  /** A step that changes the row of `v` only, to a given status and head. */
  predicate MovesRow(s: World, s': World, v: string, status: WorkspaceStatus, head: Option<string>) {
    && v in s.db.workspaces && v in s'.db.workspaces
    && s'.db.workspaces == s.db.workspaces[v := s'.db.workspaces[v]]
    && var before, row := s.db.workspaces[v], s'.db.workspaces[v];
    && row.status == status && row.head == head && row.generation == before.generation && row.kind == before.kind
    && row.volume == before.volume && row.createdAt == before.createdAt && row.updatedAt == s.clock
  }

  lemma MovedRow(s: World, step: Step, s': World, v: string, status: WorkspaceStatus, w: string)
    requires v in s.db.workspaces && MovesRow(s, s', v, status, HeadAfter(s, step, v))
    requires !step.DoClaim? && LegalMove(step, s.db.workspaces[v].status)
    requires StatusAfter(s, step, v) == status
    requires w != v && w in s.db.workspaces ==>
               StatusAfter(s, step, w) == s.db.workspaces[w].status && HeadAfter(s, step, w) == s.db.workspaces[w].head
    ensures RowStep(s, step, s', w)
  {
  }

  lemma TransitionMoves(s: World, s': World, v: string, expected: set<WorkspaceStatus>, to: WorkspaceStatus)
    requires to != Running
    requires var r := TransitionTx(s.db, v, expected, to, s.clock);
             r.Ok? && s'.db.workspaces == r.value.workspaces
    ensures v in s.db.workspaces && MovesRow(s, s', v, to, s.db.workspaces[v].head)
    ensures s.db.workspaces[v].status in expected && s.db.workspaces[v].active.None?
  {
  }

  /** The end of a sandbox moves the workspace that names it as its writer, and no other. */
  lemma FinishedRow(s: World, step: Step, s': World, b: string, recoverable: bool, status: SandboxStatus, w: string)
    requires !step.DoClaim? && Ended(s, step) == Some(b) && b in s.db.sandboxes
    requires var r := FinishTx(s.db, b, status, FinishedStatus(recoverable), s.clock);
             r.Ok? && s'.db.workspaces == r.value.workspaces
    requires w in s.db.workspaces ==> WriterFits(w, s.db.workspaces[w], s.db.sandboxes)
    requires w in s.db.workspaces && s.db.sandboxes[b].workspaceId == w ==>
               (recoverable <==> s.db.workspaces[w].kind == Recoverable)
    ensures RowStep(s, step, s', w)
  {
  }

  lemma KindIsKnown(s: World, w: string)
    requires Inv(s) && w in s.db.workspaces
    ensures s.db.workspaces[w].kind == Recoverable <==> w !in s.minted
    ensures WriterFits(w, s.db.workspaces[w], s.db.sandboxes)
  {
    assert KindFits(s.db.workspaces[w], w in s.minted);
  }

  lemma OwnerStands(s: World, b: string)
    requires Inv(s) && b in s.db.sandboxes
    ensures s.db.sandboxes[b].workspaceId in s.db.workspaces
  {
    assert RowFits(b, s.db.sandboxes[b], s.db.workspaces);
  }

  lemma EndTaskRow(s: World, step: Step, s': World, w: string)
    requires Inv(s)
    requires (step.DoFinishFailedCreation? && FinishFailedCreation(s, s', step.t))
             || (step.DoTerminateFinish? && TerminateFinish(s, s', step.t))
    ensures RowStep(s, step, s', w)
  {
    var task := s.tasks[step.t];
    assert TaskFits(s, task);
    if w in s.db.workspaces {
      KindIsKnown(s, w);
    }
    if task.sandboxId !in s.db.sandboxes {
      QuietRow(s, step, s', w);
    } else if step.DoTerminateFinish? {
      FinishedRow(s, step, s', task.sandboxId, task.recoverable, Terminated, w);
    } else {
      FinishedRow(s, step, s', task.sandboxId, task.workspaceId !in s.minted, SandboxStatus.Failed, w);
    }
  }

  lemma LostRow(s: World, s': World, b: string, w: string)
    requires Inv(s) && FinishLost(s, s', b)
    ensures RowStep(s, DoFinishLost(b), s', w)
  {
    if w in s.db.workspaces {
      KindIsKnown(s, w);
    }
    FinishedRow(s, DoFinishLost(b), s', b, s.db.sandboxes[b].workspaceId !in s.minted, SandboxStatus.Failed, w);
  }

  lemma ClaimRow(s: World, s': World, v: string, b: string, host: string, ttl: int, w: string)
    requires Claim(s, s', v, b, host, ttl)
    requires v in s.db.workspaces ==> WriterFits(v, s.db.workspaces[v], s.db.sandboxes)
    ensures RowStep(s, DoClaim(v, b, host, ttl), s', w)
  {
  }

  lemma MarkedRow(s: World, step: Step, s': World, b: string, w: string)
    requires step.DoMarkRunning? || step.DoAdopt?
    requires var r := MarkRunningTx(s.db, b, s.clock);
             r.Ok? && s'.db.workspaces == r.value.workspaces
    ensures RowStep(s, step, s', w)
  {
  }

  lemma ReleasedRow(s: World, s': World, v: string, w: string)
    requires Release(s, s', v)
    ensures RowStep(s, DoRelease(v), s', w)
  {
  }

  lemma CreatedRow(s: World, step: Step, s': World, v: string, kind: Kind, volume: string, w: string)
    requires step == (if kind == Recoverable then DoCreateRecoverable(v, volume) else DoMintEphemeral(v, volume))
    requires var r := CreateWorkspaceTx(s.db, v, kind, volume, s.clock);
             r.Ok? && s'.db.workspaces == r.value.workspaces
    ensures RowStep(s, step, s', w)
  {
  }

  lemma DeletedRow(s: World, step: Step, s': World, v: string, w: string)
    requires !step.DoClaim? && !step.DoSaveCommit? && s'.db.workspaces == s.db.workspaces - {v}
    requires w in s.db.workspaces && w == v ==> RowExists(s, step, s', w)
    requires w in s.db.workspaces ==> StatusAfter(s, step, w) == s.db.workspaces[w].status
    ensures RowStep(s, step, s', w)
  {
  }

  lemma LifecycleRow(s: World, step: Step, s': World, w: string)
    requires Inv(s) && LifecycleNext(s, step, s')
    ensures RowStep(s, step, s', w)
  {
    if step.DoCreateRecoverable? {
      CreatedRow(s, step, s', step.w, Recoverable, step.volume, w);
    } else if step.DoMintEphemeral? {
      CreatedRow(s, step, s', step.w, Ephemeral, step.volume, w);
    } else if step.DoRelease? {
      ReleasedRow(s, s', step.w, w);
    } else {
      if step.w in s.db.workspaces {
        KindIsKnown(s, step.w);
      }
      DeletedRow(s, step, s', step.w, w);
    }
  }

  /** A running workspace has a writer, so no coroutine with its lock moves it. */
  lemma LockedRow(s: World, t: nat)
    requires Inv(s) && t in s.tasks && HoldsLock(s.tasks[t], s.tasks[t].workspaceId)
    ensures TaskFits(s, s.tasks[t])
    ensures var w := s.tasks[t].workspaceId;
            w in s.db.workspaces ==> WriterFits(w, s.db.workspaces[w], s.db.sandboxes)
  {
    if s.tasks[t].workspaceId in s.db.workspaces {
      KindIsKnown(s, s.tasks[t].workspaceId);
    }
  }


  lemma SaveCommitRow(s: World, s': World, t: nat, revision: string, result: string, w: string)
    requires SaveCommit(s, s', t, revision, result)
    ensures RowStep(s, DoSaveCommit(t, revision, result), s', w)
  {
    assert s.db.workspaces[s.tasks[t].workspaceId].status == Checkpointing;
    MovedRow(s, DoSaveCommit(t, revision, result), s', s.tasks[t].workspaceId, DetachedClean, w);
  }

  lemma SaveRevertRow(s: World, s': World, t: nat, w: string)
    requires SaveRevert(s, s', t) && InStatus(s, s.tasks[t].workspaceId, Checkpointing)
    requires s.db.workspaces[s.tasks[t].workspaceId].active.None?
    ensures RowStep(s, DoSaveRevert(t), s', w)
  {
    TransitionMoves(s, s', s.tasks[t].workspaceId, {Checkpointing}, DetachedDirty);
    MovedRow(s, DoSaveRevert(t), s', s.tasks[t].workspaceId, DetachedDirty, w);
  }

  lemma SaveStartRow(s: World, s': World, v: string, o: string, w: string)
    requires SaveStart(s, s', v, o)
    ensures RowStep(s, DoSaveStart(v, o), s', w)
  {
    var s1 := s.(db := CreateOperationTx(s.db, o, Checkpoint(s.db.workspaces[v].generation), v, None,
                                         CheckpointKey(v, s.db.workspaces[v].generation), s.clock).value);
    TransitionMoves(s1, s', v, {DetachedDirty}, Checkpointing);
    MovedRow(s, DoSaveStart(v, o), s', v, Checkpointing, w);
  }


  lemma DemoteRow(s: World, s': World, t: nat, w: string)
    requires PrepareDemote(s, s', t)
    ensures RowStep(s, DoPrepareDemote(t), s', w)
  {
    TransitionMoves(s, s', s.tasks[t].workspaceId, {DetachedClean}, RemoteOnly);
    MovedRow(s, DoPrepareDemote(t), s', s.tasks[t].workspaceId, RemoteOnly, w);
  }

  lemma FetchStartRow(s: World, s': World, t: nat, o: string, w: string)
    requires FetchStart(s, s', t, o)
    ensures RowStep(s, DoFetchStart(t, o), s', w)
  {
    var v, head := s.tasks[t].workspaceId, s.tasks[t].head.value;
    var s1 := s.(db := CreateOperationTx(s.db, o, Restore(head), v, None, RestoreKey(v, head), s.clock).value);
    TransitionMoves(s1, s', v, {RemoteOnly}, Restoring);
    MovedRow(s, DoFetchStart(t, o), s', v, Restoring, w);
  }

  lemma FetchEndRow(s: World, s': World, t: nat, fetched: bool, w: string)
    requires FetchEnd(s, s', t, fetched) && InStatus(s, s.tasks[t].workspaceId, Restoring)
    requires s.db.workspaces[s.tasks[t].workspaceId].active.None?
    ensures RowStep(s, DoFetchEnd(t, fetched), s', w)
  {
    var v, to := s.tasks[t].workspaceId, if fetched then DetachedClean else RemoteOnly;
    TransitionMoves(s, s', v, {Restoring}, to);
    MovedRow(s, DoFetchEnd(t, fetched), s', v, to, w);
  }


  lemma EvictEndRow(s: World, s': World, t: nat, w: string)
    requires EvictEnd(s, s', t)
    requires var v := s.tasks[t].workspaceId;
             v in s.db.workspaces ==> WriterFits(v, s.db.workspaces[v], s.db.sandboxes)
    ensures RowStep(s, DoEvictEnd(t), s', w)
  {
    var v := s.tasks[t].workspaceId;
    if InStatus(s, v, DetachedClean) {
      TransitionMoves(s, s', v, {DetachedClean}, RemoteOnly);
      MovedRow(s, DoEvictEnd(t), s', v, RemoteOnly, w);
    } else {
      QuietRow(s, DoEvictEnd(t), s', w);
    }
  }

  lemma RetireStartRow(s: World, s': World, v: string, o: string, w: string)
    requires RetireStart(s, s', v, o)
    ensures RowStep(s, DoRetireStart(v, o), s', w)
  {
    var s1 := s.(db := CreateOperationTx(s.db, o, Retire, v, None, RetireKey(v), s.clock).value);
    if s.db.workspaces[v].status == Deleting {
      QuietRow(s, DoRetireStart(v, o), s', w);
    } else {
      TransitionMoves(s1, s', v, {DetachedClean, RemoteOnly}, Deleting);
      MovedRow(s, DoRetireStart(v, o), s', v, Deleting, w);
    }
  }

  /** Adopting marks a row that was still starting. */
  lemma AdoptedRow(s: World, s': World, b: string, w: string)
    requires Adopt(s, s', b)
    ensures RowStep(s, DoAdopt(b), s', w)
  {
    if s.db.sandboxes[b].status == SandboxStatus.Starting {
      MarkedRow(s, DoAdopt(b), s', b, w);
    } else {
      StillRow(s, DoAdopt(b), s', w);
    }
  }

  lemma RevertedRow(s: World, s': World, v: string, from: WorkspaceStatus, w: string)
    requires RevertInterrupted(s, s', v, from)
    ensures RowStep(s, DoRevertInterrupted(v, from), s', w)
  {
    var to := if from == Checkpointing then DetachedDirty else RemoteOnly;
    TransitionMoves(s, s', v, {from}, to);
    MovedRow(s, DoRevertInterrupted(v, from), s', v, to, w);
  }

  lemma CreateRow(s: World, step: Step, s': World, w: string)
    requires Inv(s) && CreateNext(s, step, s')
    ensures RowStep(s, step, s', w)
  {
    if step.DoClaim? {
      if step.w in s.db.workspaces {
        KindIsKnown(s, step.w);
      }
      ClaimRow(s, s', step.w, step.sandboxId, step.host, step.ttl, w);
    } else if step.DoFinishFailedCreation? {
      EndTaskRow(s, step, s', w);
    } else if step.DoMarkRunning? {
      MarkedRow(s, step, s', s.tasks[step.t].sandboxId, w);
    } else {
      CreateStill(s, step, s');
      StillRow(s, step, s', w);
    }
  }

  lemma TerminateRow(s: World, step: Step, s': World, w: string)
    requires Inv(s) && TerminateNext(s, step, s')
    ensures RowStep(s, step, s', w)
  {
    if step.DoTerminateFinish? {
      EndTaskRow(s, step, s', w);
    } else {
      TerminateStill(s, step, s');
      StillRow(s, step, s', w);
    }
  }

  lemma RequestRow(s: World, step: Step, s': World, w: string)
    requires RequestNext(s, step, s')
    ensures RowStep(s, step, s', w)
  {
    RequestStill(s, step, s');
    StillRow(s, step, s', w);
  }

  lemma SaveRow(s: World, step: Step, s': World, w: string)
    requires Inv(s) && SaveNext(s, step, s')
    ensures RowStep(s, step, s', w)
  {
    if step.DoSaveStart? {
      SaveStartRow(s, s', step.w, step.o, w);
    } else if step.DoSaveCommit? {
      SaveCommitRow(s, s', step.t, step.revision, step.result, w);
    } else if step.DoSaveRevert? {
      LockedRow(s, step.t);
      SaveRevertRow(s, s', step.t, w);
    } else {
      SaveStill(s, step, s');
      StillRow(s, step, s', w);
    }
  }

  lemma RestoreRow(s: World, step: Step, s': World, w: string)
    requires Inv(s) && RestoreNext(s, step, s')
    ensures RowStep(s, step, s', w)
  {
    if step.DoPrepareDemote? {
      DemoteRow(s, s', step.t, w);
    } else if step.DoFetchStart? {
      FetchStartRow(s, s', step.t, step.o, w);
    } else if step.DoFetchEnd? {
      LockedRow(s, step.t);
      FetchEndRow(s, s', step.t, step.fetched, w);
    } else {
      RestoreStill(s, step, s');
      StillRow(s, step, s', w);
    }
  }

  lemma RetainRow(s: World, step: Step, s': World, w: string)
    requires Inv(s) && RetainNext(s, step, s')
    ensures RowStep(s, step, s', w)
  {
    if step.DoEvictEnd? {
      LockedRow(s, step.t);
      EvictEndRow(s, s', step.t, w);
    } else if step.DoRetireStart? {
      RetireStartRow(s, s', step.w, step.o, w);
    } else if step.DoRetireDelete? {
      DeletedRow(s, step, s', s.tasks[step.t].workspaceId, w);
    } else {
      RetainStill(s, step, s');
      StillRow(s, step, s', w);
    }
  }

  lemma StartupRow(s: World, step: Step, s': World, w: string)
    requires Inv(s) && StartupNext(s, step, s')
    ensures RowStep(s, step, s', w)
  {
    if step.DoFinishLost? {
      LostRow(s, s', step.sandboxId, w);
    } else if step.DoRevertInterrupted? {
      RevertedRow(s, s', step.w, step.from, w);
    } else if step.DoAdopt? {
      AdoptedRow(s, s', step.sandboxId, w);
    } else {
      StartupStill(s, step, s');
      StillRow(s, step, s', w);
    }
  }

  /** Every step moves every row as the table says. */
  lemma NextRow(s: World, step: Step, s': World, w: string)
    requires Inv(s) && Next(s, step, s')
    ensures RowStep(s, step, s', w)
  {
    if LifecycleNext(s, step, s') {
      LifecycleRow(s, step, s', w);
    } else if CreateNext(s, step, s') {
      CreateRow(s, step, s', w);
    } else if TerminateNext(s, step, s') {
      TerminateRow(s, step, s', w);
    } else if RequestNext(s, step, s') {
      RequestRow(s, step, s', w);
    } else if SaveNext(s, step, s') {
      SaveRow(s, step, s', w);
    } else if RestoreNext(s, step, s') {
      RestoreRow(s, step, s', w);
    } else if RetainNext(s, step, s') {
      RetainRow(s, step, s', w);
    } else if StartupNext(s, step, s') {
      StartupRow(s, step, s', w);
    }
  }

  lemma RunRow(run: Run, i: nat, w: string)
    requires run.Valid() && i < |run.steps|
    ensures RowStep(run.worlds[i], run.steps[i], run.worlds[i + 1], w)
  {
    RunInv(run, i);
    assert run.StepAt(i);
    NextRow(run.worlds[i], run.steps[i], run.worlds[i + 1], w);
  }
}
