/** What the Manager guarantees over whole runs. */
module ManagerTheorems {
  import opened Prelude
  import opened StateTables
  import opened OperationKeys
  import opened ManagerProtocol
  import opened ManagerInvariant
  import opened ManagerTransactions
  import opened ManagerSteps
  import opened ManagerHistory

  // ---------------------------------------------------------------- single writer

  /** A Worker exists only for the live sandbox that its workspace names; so there is at most one. */
  ghost predicate SingleWriter(s: World) {
    && (forall w :: w in s.db.workspaces ==>
          (s.db.workspaces[w].status == Running <==> s.db.workspaces[w].active.Some?))
    && (forall b :: b in s.containers ==>
          && b in s.db.sandboxes && IsLive(s.db.sandboxes[b].status)
          && var w := s.db.sandboxes[b].workspaceId;
          && w == s.containers[b] && w in s.db.workspaces
          && s.db.workspaces[w].active == Some(b) && s.db.workspaces[w].status == Running)
    && (forall b, c :: b in s.containers && c in s.containers && s.containers[b] == s.containers[c]
          ==> b == c)
  }

  lemma InvSingleWriter(s: World)
    requires Inv(s)
    ensures SingleWriter(s)
  {
    forall b | b in s.containers
      ensures RowFits(b, s.db.sandboxes[b], s.db.workspaces)
      ensures WriterFits(s.containers[b], s.db.workspaces[s.containers[b]], s.db.sandboxes)
    {
      assert IsWriterOf(b, s.containers[b], s.db.sandboxes);
    }
    forall w | w in s.db.workspaces
      ensures s.db.workspaces[w].status == Running <==> s.db.workspaces[w].active.Some?
    {
      assert WriterFits(w, s.db.workspaces[w], s.db.sandboxes);
    }
  }

  lemma SingleWriterAlways(run: Run, i: nat)
    requires run.Valid() && i < |run.worlds|
    ensures SingleWriter(run.worlds[i])
  {
    RunInv(run, i);
    InvSingleWriter(run.worlds[i]);
  }

  /** A sandbox used before a claim of `w` never is the writer of `w` after it. */
  lemma {:induction false} WriterIsNewer(run: Run, i: nat, j: nat, w: string, c: string)
    requires run.Valid() && i < j < |run.worlds|
    requires run.steps[i].DoClaim? && run.steps[i].w == w && c in run.worlds[i].usedSandboxes
    ensures c in run.worlds[j].usedSandboxes && WriterOf(run.worlds[j], w) != Some(c)
  {
    RunHistory(run, j - 1, w);
    if i < j - 1 {
      WriterIsNewer(run, i, j - 1, w, c);
    }
  }

  /** What a step of another sandbox leaves: the row of `w`, every other sandbox row, the Workers. */
  predicate Unharmed(s: World, s': World, w: string, c: string) {
    && (w in s.db.workspaces <==> w in s'.db.workspaces)
    && (w in s.db.workspaces ==> s'.db.workspaces[w] == s.db.workspaces[w])
    && (forall b :: b in s.db.sandboxes && b != c ==>
          b in s'.db.sandboxes && s'.db.sandboxes[b] == s.db.sandboxes[b])
    && s'.containers == s.containers
  }

  lemma FinishSpares(s: World, s': World, c: string, status: SandboxStatus, to: WorkspaceStatus, w: string)
    requires WriterOf(s, w) != Some(c) && s'.containers == s.containers
    requires s'.db == FinishedTables(s, c, status, to)
    ensures Unharmed(s, s', w, c)
  {
  }

  /**
    The end of an older sandbox, however late it is reported, changes nothing for the workspace
    once it has been claimed again: neither its row, nor its writer's row, nor any Worker.
   */
  lemma LateFinishIsHarmless(run: Run, i: nat, j: nat, w: string, c: string)
    requires run.Valid() && i < j < |run.steps|
    requires run.steps[i].DoClaim? && run.steps[i].w == w && c in run.worlds[i].usedSandboxes
    requires Ended(run.worlds[j], run.steps[j]) == Some(c)
    ensures Unharmed(run.worlds[j], run.worlds[j + 1], w, c)
    ensures WriterOf(run.worlds[j], w) != Some(c)
  {
    WriterIsNewer(run, i, j, w, c);
    assert run.StepAt(j);
    EndSpares(run.worlds[j], run.steps[j], run.worlds[j + 1], c, w);
  }

  lemma EndSpares(s: World, step: Step, s': World, c: string, w: string)
    requires Next(s, step, s') && Ended(s, step) == Some(c) && WriterOf(s, w) != Some(c)
    ensures Unharmed(s, s', w, c)
  {
    if step.DoTerminateFinish? {
      FinishSpares(s, s', c, Terminated, FinishedStatus(s.tasks[step.t].recoverable), w);
    } else if step.DoFinishFailedCreation? {
      FinishSpares(s, s', c, SandboxStatus.Failed, FinishedStatus(s.tasks[step.t].workspaceId !in s.minted), w);
    } else {
      FinishSpares(s, s', c, SandboxStatus.Failed, FinishedStatus(s.db.sandboxes[c].workspaceId !in s.minted), w);
    }
  }

  // ---------------------------------------------------------------- no generation is lost

  /** `head_revision` of `w` is what a checkpoint of generation `g` committed at step `j`. */
  ghost predicate CommittedAt(run: Run, j: nat, w: string, revision: string, g: nat)
    requires run.Valid() && j < |run.steps|
  {
    && run.steps[j].DoSaveCommit? && run.steps[j].revision == revision
    && var t := run.steps[j].t;
    && t in run.worlds[j].tasks && run.worlds[j].tasks[t].Saving?
    && run.worlds[j].tasks[t].workspaceId == w && run.worlds[j].tasks[t].generation == g
  }

  lemma RunHistory(run: Run, i: nat, w: string)
    requires run.Valid() && i < |run.steps|
    ensures RowHistory(run.worlds[i], run.steps[i], run.worlds[i + 1], w)
  {
    RunInv(run, i);
    assert run.StepAt(i);
    NextHistory(run.worlds[i], run.steps[i], run.worlds[i + 1], w);
  }

  ghost predicate HeadCommittedBy(run: Run, i: nat, w: string, j: nat)
    requires run.Valid() && i < |run.worlds| && j < i
  {
    && w in run.worlds[i].db.workspaces && w in run.worlds[i].headGeneration
    && run.worlds[i].db.workspaces[w].head.Some?
    && CommittedAt(run, j, w, run.worlds[i].db.workspaces[w].head.value, run.worlds[i].headGeneration[w])
  }

  /** Behind every head there is the step that committed it. */
  lemma {:induction false} HeadWasCommitted(run: Run, i: nat, w: string) returns (j: nat)
    requires run.Valid() && i < |run.worlds|
    requires w in run.worlds[i].db.workspaces && run.worlds[i].db.workspaces[w].head.Some?
    ensures j < i && HeadCommittedBy(run, i, w, j)
  {
    RunInv(run, i);
    assert IsDurable(w, run.worlds[i].db.workspaces[w], run.worlds[i].headGeneration);
    assert i > 0;
    var s, s' := run.worlds[i - 1], run.worlds[i];
    RunHistory(run, i - 1, w);
    if KeepsHead(s, s', w) {
      j := HeadWasCommitted(run, i - 1, w);
    } else {
      j := i - 1;
    }
  }

  /**
    No uncommitted generation is ever dropped: a workspace whose volume the Manager may discard
    either has a head that some step of the run committed at the current generation, or it was
    never claimed.
   */
  lemma NoGenerationLost(run: Run, i: nat, w: string) returns (j: nat)
    requires run.Valid() && i < |run.worlds| && w in run.worlds[i].db.workspaces
    requires var row := run.worlds[i].db.workspaces[w];
             || row.status in {RemoteOnly, Restoring}
             || (row.kind == Recoverable && row.status in {DetachedClean, Deleting})
    ensures var row := run.worlds[i].db.workspaces[w];
            || (j < i && HeadCommittedBy(run, i, w, j) && run.worlds[i].headGeneration[w] == row.generation)
            || (row.generation == 0 && row.head.None? && row.status in {DetachedClean, Deleting})
  {
    var s := run.worlds[i];
    RunInv(run, i);
    assert IsDurable(w, s.db.workspaces[w], s.headGeneration);
    j := 0;
    if s.db.workspaces[w].head.Some? {
      j := HeadWasCommitted(run, i, w);
    }
  }

  // ---------------------------------------------------------------- checkpoint isolation

  lemma RunTasksKept(run: Run, i: nat)
    requires run.Valid() && i < |run.steps|
    ensures TasksKept(run.worlds[i], run.steps[i], run.worlds[i + 1])
  {
    assert run.StepAt(i);
    NextTasksKept(run.worlds[i], run.steps[i], run.worlds[i + 1]);
  }

  /** A coroutine that exists at `j` and was numbered by `i` exists at `i`, with the same job. */
  lemma {:induction false} TaskPersists(run: Run, i: nat, j: nat, t: nat)
    requires run.Valid() && i <= j < |run.worlds|
    requires t < run.worlds[i].nextTask && t in run.worlds[j].tasks
    ensures t in run.worlds[i].tasks && SameJob(run.worlds[i].tasks[t], run.worlds[j].tasks[t])
    decreases j - i
  {
    if i < j {
      RunTasksKept(run, i);
      TaskPersists(run, i + 1, j, t);
    }
  }

  /** Nobody can write `w`: no live sandbox row and no Worker. */
  ghost predicate Quiet(s: World, w: string) {
    && w in s.db.workspaces && s.db.workspaces[w].status == Checkpointing
    && s.db.workspaces[w].active.None?
    && (forall b :: b in s.db.sandboxes && s.db.sandboxes[b].workspaceId == w ==>
          !IsLive(s.db.sandboxes[b].status))
    && (forall b :: b in s.containers ==> s.containers[b] != w)
  }

  lemma SavingIsQuiet(s: World, t: nat)
    requires Inv(s) && t in s.tasks && s.tasks[t].Saving?
    ensures Quiet(s, s.tasks[t].workspaceId)
    ensures s.db.workspaces[s.tasks[t].workspaceId].generation == s.tasks[t].generation
  {
    var w := s.tasks[t].workspaceId;
    assert TaskFits(s, s.tasks[t]);
    assert WriterFits(w, s.db.workspaces[w], s.db.sandboxes);
    forall b | b in s.db.sandboxes && s.db.sandboxes[b].workspaceId == w
      ensures !IsLive(s.db.sandboxes[b].status)
    {
      assert RowFits(b, s.db.sandboxes[b], s.db.workspaces);
    }
    forall b | b in s.containers
      ensures s.containers[b] != w
    {
      assert IsWriterOf(b, s.containers[b], s.db.sandboxes);
    }
  }

  /** Step `i` starts the checkpoint that runs as `task` under the number `t`. */
  ghost predicate StartedAt(run: Run, i: nat, t: nat, task: Task)
    requires run.Valid() && i < |run.steps|
  {
    && task.Saving? && t == run.worlds[i].nextTask && t < run.worlds[i + 1].nextTask
    && t in run.worlds[i + 1].tasks && SameJob(run.worlds[i + 1].tasks[t], task)
    && run.steps[i] == DoSaveStart(task.workspaceId, task.operationId)
    && task.workspaceId in run.worlds[i].db.workspaces
    && run.worlds[i].db.workspaces[task.workspaceId].generation == task.generation
  }

  /** Behind every checkpoint there is the step that moved its workspace to checkpointing. */
  lemma {:induction false} SavingWasStarted(run: Run, j: nat, t: nat) returns (i: nat)
    requires run.Valid() && j < |run.worlds|
    requires t in run.worlds[j].tasks && run.worlds[j].tasks[t].Saving?
    ensures i < j && StartedAt(run, i, t, run.worlds[j].tasks[t])
  {
    assert j > 0;
    RunTasksKept(run, j - 1);
    if t in run.worlds[j - 1].tasks && SameJob(run.worlds[j - 1].tasks[t], run.worlds[j].tasks[t]) {
      i := SavingWasStarted(run, j - 1, t);
    } else {
      i := j - 1;
    }
  }

  /**
    A checkpoint that commits at step `j` was started at some earlier step `i`, and has had the
    workspace to itself, at one generation, in every world in between; its commit sets head,
    status and operation in one step.
   */
  lemma CheckpointIsolation(run: Run, j: nat) returns (i: nat)
    requires run.Valid() && j < |run.steps| && run.steps[j].DoSaveCommit?
    ensures var s, s', t := run.worlds[j], run.worlds[j + 1], run.steps[j].t;
            && t in s.tasks && s.tasks[t].Saving?
            && var w, g, o := s.tasks[t].workspaceId, s.tasks[t].generation, s.tasks[t].operationId;
            && i < j && StartedAt(run, i, t, s.tasks[t])
            && (forall k :: i < k <= j ==>
                  Quiet(run.worlds[k], w) && run.worlds[k].db.workspaces[w].generation == g)
            && w in s'.db.workspaces
            && s'.db.workspaces[w].head == Some(run.steps[j].revision)
            && s'.db.workspaces[w].status == DetachedClean
            && s'.db.workspaces[w].generation == g
            && o in s'.db.operations && s'.db.operations[o].status == Succeeded
            && s'.db.operations[o].result == Some(run.steps[j].result)
  {
    var t := run.steps[j].t;
    SaveCommitEffect(run, j, t);
    i := SavingWasStarted(run, j, t);
    var w, g := run.worlds[j].tasks[t].workspaceId, run.worlds[j].tasks[t].generation;
    forall k | i < k <= j
      ensures Quiet(run.worlds[k], w) && run.worlds[k].db.workspaces[w].generation == g
    {
      RunNextTask(run, i + 1, k);
      QuietUntil(run, k, j, t);
    }
  }

  lemma QuietUntil(run: Run, k: nat, j: nat, t: nat)
    requires run.Valid() && k <= j < |run.worlds|
    requires t < run.worlds[k].nextTask && t in run.worlds[j].tasks && run.worlds[j].tasks[t].Saving?
    ensures Quiet(run.worlds[k], run.worlds[j].tasks[t].workspaceId)
    ensures run.worlds[k].db.workspaces[run.worlds[j].tasks[t].workspaceId].generation
            == run.worlds[j].tasks[t].generation
  {
    TaskPersists(run, k, j, t);
    RunInv(run, k);
    SavingIsQuiet(run.worlds[k], t);
  }

  lemma SaveCommitEffect(run: Run, j: nat, t: nat)
    requires run.Valid() && j < |run.steps| && run.steps[j].DoSaveCommit? && run.steps[j].t == t
    ensures t in run.worlds[j].tasks && run.worlds[j].tasks[t].Saving?
    ensures var s, s' := run.worlds[j], run.worlds[j + 1];
            var w, o := s.tasks[t].workspaceId, s.tasks[t].operationId;
            && w in s'.db.workspaces
            && s'.db.workspaces[w].head == Some(run.steps[j].revision)
            && s'.db.workspaces[w].status == DetachedClean
            && s'.db.workspaces[w].generation == s.tasks[t].generation
            && o in s'.db.operations && s'.db.operations[o].status == Succeeded
            && s'.db.operations[o].result == Some(run.steps[j].result)
  {
    assert run.StepAt(j);
    assert SaveCommit(run.worlds[j], run.worlds[j + 1], t, run.steps[j].revision, run.steps[j].result);
  }

  lemma {:induction false} RunNextTask(run: Run, i: nat, j: nat)
    requires run.Valid() && i <= j < |run.worlds|
    ensures run.worlds[i].nextTask <= run.worlds[j].nextTask
    decreases j - i
  {
    if i < j {
      RunTasksKept(run, i);
      RunNextTask(run, i + 1, j);
    }
  }

  // ---------------------------------------------------------------- idempotency keys

  /** While a workspace is dirty, no operation under the key of its generation has succeeded. */
  lemma DirtyIsNeverReportedDone(run: Run, i: nat, w: string, o: string)
    requires run.Valid() && i < |run.worlds|
    requires w in run.worlds[i].db.workspaces && IsDirty(run.worlds[i].db.workspaces[w].status)
    requires Holds(run.worlds[i].db, o, CheckpointKey(w, run.worlds[i].db.workspaces[w].generation))
    ensures run.worlds[i].db.operations[o].status != Succeeded
  {
    var s := run.worlds[i];
    RunInv(run, i);
    assert OperationFits(s.db.operations[o], s.db.workspaces);
    CheckpointKeyOwner(s.db.operations[o], w, s.db.workspaces[w].generation);
  }

  /**
    So `_checkpoint_workspace` never takes its early return: for a dirty workspace without a
    writer it finds or files an operation that has not succeeded, and moves to checkpointing.
   */
  lemma CheckpointAlwaysStarts(run: Run, i: nat, w: string, unused: string) returns (o: string)
    requires run.Valid() && i < |run.worlds|
    requires var s := run.worlds[i];
             && s.mode == Serving && w in s.db.workspaces && s.db.workspaces[w].status == DetachedDirty
             && LockFree(s, w) && unused !in s.db.operations
    ensures exists s' :: SaveStart(run.worlds[i], s', w, o)
  {
    var s := run.worlds[i];
    var row := s.db.workspaces[w];
    RunInv(run, i);
    assert WriterFits(w, row, s.db.sandboxes);
    var key := CheckpointKey(w, row.generation);
    if HasKey(s.db, key) {
      o :| o in s.db.operations && s.db.operations[o].key == key;
      DirtyIsNeverReportedDone(run, i, w, o);
    } else {
      o := unused;
    }
    var created := CreateOperationTx(s.db, o, Checkpoint(row.generation), w, None, key, s.clock).value;
    var moved := TransitionTx(created, w, {DetachedDirty}, Checkpointing, s.clock).value;
    var s' := AddTask(s, Saving(w, row.generation, o, false)).(db := moved);
    assert SaveStart(s, s', w, o);
  }

  // ---------------------------------------------------------------- grace period

  /** `w` was released at step `i`, and neither claimed nor recreated between then and world `j`. */
  ghost predicate ReleasedSince(run: Run, i: nat, j: nat, w: string)
    requires run.Valid() && i < j < |run.worlds|
  {
    && run.steps[i] == DoRelease(w)
    && (forall k :: i < k <= j ==> w in run.worlds[k].db.workspaces)
    && (forall k :: i <= k < j ==> !(run.steps[k].DoClaim? && run.steps[k].w == w))
  }

  lemma {:induction false} ReleaseHappened(run: Run, j: nat, w: string) returns (i: nat)
    requires run.Valid() && j < |run.worlds| && w in run.worlds[j].releasedAt
    ensures i < j && ReleasedSince(run, i, j, w)
    ensures run.worlds[i].clock == run.worlds[j].releasedAt[w]
    ensures run.worlds[i].grace == run.worlds[j].grace
  {
    assert j > 0;
    var s, s' := run.worlds[j - 1], run.worlds[j];
    RunHistory(run, j - 1, w);
    if KeepsRelease(s, run.steps[j - 1], s', w) {
      i := ReleaseHappened(run, j - 1, w);
    } else {
      i := j - 1;
    }
  }

  /**
    A recoverable workspace enters deleting only through retirement, only if it was released
    after its most recent claim, and only once the grace period has passed.
   */
  lemma RetirementHonoursGrace(run: Run, j: nat, w: string) returns (i: nat)
    requires run.Valid() && j < |run.steps|
    requires IsDeleting(run.worlds[j + 1], w) && run.worlds[j + 1].db.workspaces[w].kind == Recoverable
    requires !IsDeleting(run.worlds[j], w)
    ensures run.steps[j].DoRetireStart? && run.steps[j].w == w
    ensures i < j && ReleasedSince(run, i, j, w)
    ensures run.worlds[i].clock + run.worlds[i].grace <= run.worlds[j].clock
  {
    var s, s' := run.worlds[j], run.worlds[j + 1];
    assert run.StepAt(j);
    RunInv(run, j);
    RunHistory(run, j, w);
    assert RetireStart(s, s', w, run.steps[j].o);
    assert ScheduleFits(w, s.db.workspaces[w], s.releasedAt, s.grace);
    i := ReleaseHappened(run, j, w);
  }

  /** After a claim the workspace counts as released only once it is released again. */
  lemma {:induction false} ClaimForgetsRelease(run: Run, i: nat, j: nat, w: string)
    requires run.Valid() && i < j < |run.worlds|
    requires run.steps[i].DoClaim? && run.steps[i].w == w
    requires forall k :: i < k < j ==> run.steps[k] != DoRelease(w)
    ensures w !in run.worlds[j].releasedAt
  {
    RunHistory(run, j - 1, w);
    if i < j - 1 {
      ClaimForgetsRelease(run, i, j - 1, w);
    }
  }

  /** A claim cancels the retirement: until the next release nothing can start one. */
  lemma ClaimCancelsRetirement(run: Run, i: nat, j: nat, w: string)
    requires run.Valid() && i < j < |run.steps|
    requires run.steps[i].DoClaim? && run.steps[i].w == w
    requires forall k :: i < k < j ==> run.steps[k] != DoRelease(w)
    ensures !(run.steps[j].DoRetireStart? && run.steps[j].w == w)
  {
    var s := run.worlds[j];
    ClaimForgetsRelease(run, i, j, w);
    RunInv(run, j);
    assert run.StepAt(j);
    assert w in s.db.workspaces ==> ScheduleFits(w, s.db.workspaces[w], s.releasedAt, s.grace);
  }

  // ---------------------------------------------------------------- candidates of the reaper

  /** The local volumes that the reaper may discard are those of saved generations only. */
  lemma CleanupCandidateIsSaved(run: Run, i: nat, w: string, updatedBefore: int) returns (j: nat)
    requires run.Valid() && i < |run.worlds| && w in CleanupCandidates(run.worlds[i].db, updatedBefore)
    ensures j < i && HeadCommittedBy(run, i, w, j)
    ensures run.worlds[i].headGeneration[w] == run.worlds[i].db.workspaces[w].generation
  {
    j := NoGenerationLost(run, i, w);
  }

  /** The workspaces that the reaper may retire were released a grace period ago, and not claimed since. */
  lemma RetireCandidateIsReleased(run: Run, i: nat, w: string) returns (r: nat)
    requires run.Valid() && i < |run.worlds| && w in RetireCandidates(run.worlds[i].db, run.worlds[i].clock)
    ensures r < i && ReleasedSince(run, r, i, w)
    ensures run.worlds[r].clock + run.worlds[r].grace <= run.worlds[i].clock
  {
    RunInv(run, i);
    var s := run.worlds[i];
    assert ScheduleFits(w, s.db.workspaces[w], s.releasedAt, s.grace);
    r := ReleaseHappened(run, i, w);
  }
}
