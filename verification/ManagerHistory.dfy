/**
  What one step may do to the facts that the Manager's theorems follow through a run: the head,
  the release, the writer and the deletion of one workspace, and the coroutines.
 */
module ManagerHistory {
  import opened Prelude
  import opened StateTables
  import opened ManagerProtocol
  import opened ManagerInvariant

  // ---------------------------------------------------------------- one workspace

  predicate KeepsHead(s: World, s': World, w: string) {
    && w in s.headGeneration && w in s'.headGeneration && s'.headGeneration[w] == s.headGeneration[w]
    && w in s.db.workspaces && w in s'.db.workspaces
    && s'.db.workspaces[w].head == s.db.workspaces[w].head
  }

  predicate CommitsHead(s: World, step: Step, s': World, w: string) {
    && step.DoSaveCommit? && step.t in s.tasks && s.tasks[step.t].Saving?
    && s.tasks[step.t].workspaceId == w
    && w in s'.headGeneration && s'.headGeneration[w] == s.tasks[step.t].generation
    && w in s'.db.workspaces && s'.db.workspaces[w].head == Some(step.revision)
  }

  predicate KeepsRelease(s: World, step: Step, s': World, w: string) {
    && w in s.releasedAt && w in s'.releasedAt && s'.releasedAt[w] == s.releasedAt[w]
    && w in s'.db.workspaces && !(step.DoClaim? && step.w == w)
  }

  predicate Releases(s: World, step: Step, s': World, w: string) {
    && step.DoRelease? && step.w == w && w in s'.db.workspaces
    && w in s'.releasedAt && s'.releasedAt[w] == s.clock
  }

  predicate IsDeleting(s: World, w: string) {
    w in s.db.workspaces && s.db.workspaces[w].status == Deleting
  }

  function WriterOf(s: World, w: string): Option<string> {
    if w in s.db.workspaces then s.db.workspaces[w].active else None
  }

  predicate GainsWriter(s: World, step: Step, s': World, w: string) {
    && step.DoClaim? && step.w == w
    && WriterOf(s', w) == Some(step.sandboxId) && step.sandboxId !in s.usedSandboxes
  }

  predicate HeadHistory(s: World, step: Step, s': World, w: string) {
    w in s'.headGeneration ==> KeepsHead(s, s', w) || CommitsHead(s, step, s', w)
  }

  predicate ReleaseHistory(s: World, step: Step, s': World, w: string) {
    w in s'.releasedAt ==> KeepsRelease(s, step, s', w) || Releases(s, step, s', w)
  }

  predicate DeletionHistory(s: World, step: Step, s': World, w: string) {
    IsDeleting(s', w) && s'.db.workspaces[w].kind == Recoverable && !IsDeleting(s, w) ==>
      step.DoRetireStart? && step.w == w
  }

  predicate WriterHistory(s: World, step: Step, s': World, w: string) {
    && (WriterOf(s', w).Some? ==> WriterOf(s', w) == WriterOf(s, w) || GainsWriter(s, step, s', w))
    && (step.DoClaim? && step.w == w ==> GainsWriter(s, step, s', w))
    && s.usedSandboxes <= s'.usedSandboxes
  }

  /** The only ways in which a workspace gets a head, is released, starts to be deleted, gets a writer. */
  predicate RowHistory(s: World, step: Step, s': World, w: string) {
    && HeadHistory(s, step, s', w) && ReleaseHistory(s, step, s', w)
    && DeletionHistory(s, step, s', w) && WriterHistory(s, step, s', w)
    && s'.grace == s.grace && s.clock <= s'.clock
  }

  /** What these histories rely on. */
  predicate RowTracked(s: World, w: string) {
    && (w in s.headGeneration || w in s.releasedAt ==> w in s.db.workspaces)
    && (w in s.db.workspaces ==> (s.db.workspaces[w].kind == Ephemeral <==> w in s.minted))
  }

  /** A coroutine knows the workspace of its sandbox, and whether it is recoverable. */
  predicate BoxTracked(s: World, task: Task) {
    && (task.Terminating? ==> (task.recoverable <==> task.workspaceId !in s.minted))
    && ((task.Terminating? && task.sandboxId in s.db.sandboxes) || task.Creating? ==>
          && task.sandboxId in s.db.sandboxes
          && s.db.sandboxes[task.sandboxId].workspaceId == task.workspaceId)
  }

  ghost predicate Tracked(s: World, w: string) {
    RowTracked(s, w) && forall t :: t in s.tasks ==> BoxTracked(s, s.tasks[t])
  }

  lemma InvTracked(s: World, w: string)
    requires Inv(s)
    ensures Tracked(s, w)
  {
    assert w in s.db.workspaces ==> KindFits(s.db.workspaces[w], w in s.minted);
    forall t | t in s.tasks
      ensures BoxTracked(s, s.tasks[t])
    {
      assert TaskFits(s, s.tasks[t]);
    }
  }

  predicate SameEntry<T(==)>(a: map<string, T>, b: map<string, T>, w: string) {
    (w in a <==> w in b) && (w in a ==> b[w] == a[w])
  }

  /** The step leaves the history kept for `w`, and claims nothing. */
  predicate NoHistory(s: World, step: Step, s': World, w: string) {
    && SameEntry(s.headGeneration, s'.headGeneration, w) && SameEntry(s.releasedAt, s'.releasedAt, w)
    && s'.usedSandboxes == s.usedSandboxes && s'.grace == s.grace && s.clock <= s'.clock
    && !step.DoClaim?
  }

  /** A row may lose its writer and change its status, but not start to be deleted unless ephemeral. */
  predicate Settles(before: Workspace, row: Workspace) {
    && row.head == before.head && row.kind == before.kind
    && (row.active == before.active || row.active.None?)
    && (row.status == Deleting ==> row.status == before.status || row.kind == Ephemeral)
  }

  predicate RowSettles(s: World, s': World, w: string) {
    && (w in s.db.workspaces <==> w in s'.db.workspaces)
    && (w in s'.db.workspaces ==> Settles(s.db.workspaces[w], s'.db.workspaces[w]))
  }

  /** A workspace that is gone has no history. */
  lemma GoneHistory(s: World, step: Step, s': World, w: string)
    requires w !in s'.headGeneration && w !in s'.releasedAt && w !in s'.db.workspaces && !step.DoClaim?
    requires s'.usedSandboxes == s.usedSandboxes && s'.grace == s.grace && s.clock <= s'.clock
    ensures RowHistory(s, step, s', w)
  {
  }

  lemma SettlesHistory(s: World, step: Step, s': World, w: string)
    requires NoHistory(s, step, s', w) && RowSettles(s, s', w)
    requires RowTracked(s, w)
    ensures RowHistory(s, step, s', w)
  {
    SettlesWriter(s, step, s', w);
  }

  lemma SettlesWriter(s: World, step: Step, s': World, w: string)
    requires !step.DoClaim? && s'.usedSandboxes == s.usedSandboxes && RowSettles(s, s', w)
    ensures DeletionHistory(s, step, s', w) && WriterHistory(s, step, s', w)
  {
  }

  // ---------------------------------------------------------------- one step

  lemma ClaimHistory(s: World, s': World, v: string, b: string, host: string, ttl: int, w: string)
    requires RowTracked(s, w) && Claim(s, s', v, b, host, ttl)
    ensures RowHistory(s, DoClaim(v, b, host, ttl), s', w)
  {
  }

  lemma MarkRunningSettles(s: World, s': World, t: nat, w: string)
    requires MarkRunning(s, s', t)
    ensures NoHistory(s, DoMarkRunning(t), s', w) && RowSettles(s, s', w)
  {
  }

  /** Finishing a sandbox settles its workspace; only an ephemeral one is then deleted. */
  lemma FinishSettles(s: World, s': World, b: string, status: SandboxStatus, to: WorkspaceStatus, w: string)
    requires b in s.db.sandboxes && s'.db == FinishedTables(s, b, status, to)
    requires s.db.sandboxes[b].workspaceId == w && to == Deleting && w in s.db.workspaces ==>
               s.db.workspaces[w].kind == Ephemeral
    ensures RowSettles(s, s', w)
  {
  }

  function FinishedTables(s: World, b: string, status: SandboxStatus, to: WorkspaceStatus): Tables {
    var r := FinishTx(s.db, b, status, to, s.clock);
    if r.Ok? then r.value else s.db
  }

  lemma FinishFailedCreationHistory(s: World, s': World, t: nat, w: string)
    requires Tracked(s, w) && FinishFailedCreation(s, s', t)
    ensures RowHistory(s, DoFinishFailedCreation(t), s', w)
  {
    var task := s.tasks[t];
    FinishSettles(s, s', task.sandboxId, SandboxStatus.Failed, FinishedStatus(task.workspaceId !in s.minted), w);
    SettlesHistory(s, DoFinishFailedCreation(t), s', w);
  }

  lemma TerminateFinishHistory(s: World, s': World, t: nat, w: string)
    requires Tracked(s, w) && TerminateFinish(s, s', t)
    ensures RowHistory(s, DoTerminateFinish(t), s', w)
  {
    var task := s.tasks[t];
    if task.sandboxId in s.db.sandboxes {
      FinishSettles(s, s', task.sandboxId, Terminated, FinishedStatus(task.recoverable), w);
    }
    SettlesHistory(s, DoTerminateFinish(t), s', w);
  }

  lemma FinishLostHistory(s: World, s': World, b: string, w: string)
    requires RowTracked(s, w) && FinishLost(s, s', b)
    ensures RowHistory(s, DoFinishLost(b), s', w)
  {
    FinishSettles(s, s', b, SandboxStatus.Failed,
                  FinishedStatus(s.db.sandboxes[b].workspaceId !in s.minted), w);
    SettlesHistory(s, DoFinishLost(b), s', w);
  }

  lemma SaveCommitHistory(s: World, s': World, t: nat, revision: string, result: string, w: string)
    requires RowTracked(s, w) && SaveCommit(s, s', t, revision, result)
    ensures RowHistory(s, DoSaveCommit(t, revision, result), s', w)
  {
  }

  lemma RetireStartHistory(s: World, s': World, v: string, o: string, w: string)
    requires RowTracked(s, w) && RetireStart(s, s', v, o)
    ensures RowHistory(s, DoRetireStart(v, o), s', w)
  {
  }

  lemma RemovedHistory(s: World, step: Step, s': World, v: string, w: string)
    requires RowTracked(s, w) && !step.DoClaim? && s'.clock == s.clock && s'.grace == s.grace
    requires s'.usedSandboxes == s.usedSandboxes
    requires s'.headGeneration == s.headGeneration - {v} && s'.releasedAt == s.releasedAt - {v}
    requires s'.db.workspaces == s.db.workspaces - {v}
    ensures RowHistory(s, step, s', w)
  {
    if v == w {
      GoneHistory(s, step, s', w);
    } else {
      SettlesHistory(s, step, s', w);
    }
  }

  lemma LifecycleHistory(s: World, step: Step, s': World, w: string)
    requires RowTracked(s, w) && LifecycleNext(s, step, s')
    ensures RowHistory(s, step, s', w)
  {
    if step.DoDeleteEphemeral? {
      RemovedHistory(s, step, s', step.w, w);
    }
  }

  lemma CreateHistory(s: World, step: Step, s': World, w: string)
    requires Tracked(s, w) && CreateNext(s, step, s')
    ensures RowHistory(s, step, s', w)
  {
    if step.DoClaim? {
      ClaimHistory(s, s', step.w, step.sandboxId, step.host, step.ttl, w);
    } else if step.DoFinishFailedCreation? {
      FinishFailedCreationHistory(s, s', step.t, w);
    } else {
      if step.DoMarkRunning? {
        MarkRunningSettles(s, s', step.t, w);
      }
      SettlesHistory(s, step, s', w);
    }
  }

  lemma TerminateHistory(s: World, step: Step, s': World, w: string)
    requires Tracked(s, w) && TerminateNext(s, step, s')
    ensures RowHistory(s, step, s', w)
  {
    if step.DoTerminateFinish? {
      TerminateFinishHistory(s, s', step.t, w);
    } else {
      SettlesHistory(s, step, s', w);
    }
  }

  lemma RequestHistory(s: World, step: Step, s': World, w: string)
    requires RowTracked(s, w) && RequestNext(s, step, s')
    ensures RowHistory(s, step, s', w)
  {
    SettlesHistory(s, step, s', w);
  }

  lemma SaveHistory(s: World, step: Step, s': World, w: string)
    requires RowTracked(s, w) && SaveNext(s, step, s')
    ensures RowHistory(s, step, s', w)
  {
    if step.DoSaveCommit? {
      SaveCommitHistory(s, s', step.t, step.revision, step.result, w);
    } else {
      SettlesHistory(s, step, s', w);
    }
  }

  lemma RestoreHistory(s: World, step: Step, s': World, w: string)
    requires RowTracked(s, w) && RestoreNext(s, step, s')
    ensures RowHistory(s, step, s', w)
  {
    SettlesHistory(s, step, s', w);
  }

  lemma RetainHistory(s: World, step: Step, s': World, w: string)
    requires RowTracked(s, w) && RetainNext(s, step, s')
    ensures RowHistory(s, step, s', w)
  {
    if step.DoRetireStart? {
      RetireStartHistory(s, s', step.w, step.o, w);
    } else if step.DoRetireDelete? {
      RemovedHistory(s, step, s', s.tasks[step.t].workspaceId, w);
    } else {
      SettlesHistory(s, step, s', w);
    }
  }

  lemma StartupHistory(s: World, step: Step, s': World, w: string)
    requires RowTracked(s, w) && StartupNext(s, step, s')
    ensures RowHistory(s, step, s', w)
  {
    if step.DoFinishLost? {
      FinishLostHistory(s, s', step.sandboxId, w);
    } else {
      SettlesHistory(s, step, s', w);
    }
  }

  lemma NextHistory(s: World, step: Step, s': World, w: string)
    requires Inv(s) && Next(s, step, s')
    ensures RowHistory(s, step, s', w)
  {
    InvTracked(s, w);
    if LifecycleNext(s, step, s') {
      LifecycleHistory(s, step, s', w);
    } else if CreateNext(s, step, s') {
      CreateHistory(s, step, s', w);
    } else if TerminateNext(s, step, s') {
      TerminateHistory(s, step, s', w);
    } else if RequestNext(s, step, s') {
      RequestHistory(s, step, s', w);
    } else if SaveNext(s, step, s') {
      SaveHistory(s, step, s', w);
    } else if RestoreNext(s, step, s') {
      RestoreHistory(s, step, s', w);
    } else if RetainNext(s, step, s') {
      RetainHistory(s, step, s', w);
    } else if StartupNext(s, step, s') {
      StartupHistory(s, step, s', w);
    }
  }

  // ---------------------------------------------------------------- coroutines

  /** A coroutine keeps its workspace, and a checkpoint its generation and operation. */
  predicate SameJob(a: Task, b: Task) {
    && a.workspaceId == b.workspaceId
    && (b.Saving? ==> a.Saving? && a.generation == b.generation && a.operationId == b.operationId)
  }

  /** A coroutine starts under the next number, a checkpoint at the generation of its workspace. */
  predicate Starts(s: World, step: Step, t: nat, task: Task) {
    && t == s.nextTask
    && (task.Saving? ==>
          && step == DoSaveStart(task.workspaceId, task.operationId)
          && task.workspaceId in s.db.workspaces
          && task.generation == s.db.workspaces[task.workspaceId].generation)
  }

  /** Coroutines keep their identity, or they start, and their numbers are not used again. */
  predicate TasksKept(s: World, step: Step, s': World) {
    && s.nextTask <= s'.nextTask
    && forall t :: t in s'.tasks ==>
         || (t in s.tasks && SameJob(s.tasks[t], s'.tasks[t]))
         || (t < s'.nextTask && Starts(s, step, t, s'.tasks[t]))
  }

  lemma LifecycleTasksKept(s: World, step: Step, s': World)
    requires LifecycleNext(s, step, s')
    ensures TasksKept(s, step, s')
  {
  }

  lemma CreateTasksKept(s: World, step: Step, s': World)
    requires CreateNext(s, step, s')
    ensures TasksKept(s, step, s')
  {
  }

  lemma TerminateTasksKept(s: World, step: Step, s': World)
    requires TerminateNext(s, step, s')
    ensures TasksKept(s, step, s')
  {
  }

  lemma RequestTasksKept(s: World, step: Step, s': World)
    requires RequestNext(s, step, s')
    ensures TasksKept(s, step, s')
  {
  }

  lemma SaveTasksKept(s: World, step: Step, s': World)
    requires SaveNext(s, step, s')
    ensures TasksKept(s, step, s')
  {
  }

  lemma RestoreTasksKept(s: World, step: Step, s': World)
    requires RestoreNext(s, step, s')
    ensures TasksKept(s, step, s')
  {
  }

  lemma RetainTasksKept(s: World, step: Step, s': World)
    requires RetainNext(s, step, s')
    ensures TasksKept(s, step, s')
  {
  }

  lemma StartupTasksKept(s: World, step: Step, s': World)
    requires StartupNext(s, step, s')
    ensures TasksKept(s, step, s')
  {
  }

  lemma NextTasksKept(s: World, step: Step, s': World)
    requires Next(s, step, s')
    ensures TasksKept(s, step, s')
  {
    if LifecycleNext(s, step, s') {
      LifecycleTasksKept(s, step, s');
    } else if CreateNext(s, step, s') {
      CreateTasksKept(s, step, s');
    } else if TerminateNext(s, step, s') {
      TerminateTasksKept(s, step, s');
    } else if RequestNext(s, step, s') {
      RequestTasksKept(s, step, s');
    } else if SaveNext(s, step, s') {
      SaveTasksKept(s, step, s');
    } else if RestoreNext(s, step, s') {
      RestoreTasksKept(s, step, s');
    } else if RetainNext(s, step, s') {
      RetainTasksKept(s, step, s');
    } else if StartupNext(s, step, s') {
      StartupTasksKept(s, step, s');
    }
  }
}
