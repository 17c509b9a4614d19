/**
  The life of an operation row as one table, and what a client may conclude from it: a checkpoint
  that is reported done has been committed.
 */
module ManagerOperations {
  import opened Prelude
  import opened StateTables
  import opened OperationKeys
  import opened ManagerProtocol
  import opened ManagerInvariant
  import opened ManagerTransactions
  import opened ManagerSteps
  import opened ManagerStatus
  import opened ManagerTheorems

  // ---------------------------------------------------------------- the table

  datatype Report = Report(status: OperationStatus, phase: Option<string>, result: Option<string>,
                           error: Option<string>)

  predicate Saves(s: World, t: nat, o: string) {
    t in s.tasks && s.tasks[t].Saving? && s.tasks[t].operationId == o
  }

  /** What a step reports about an operation. */
  function Reports(s: World, step: Step, o: string): Option<Report>
    requires o in s.db.operations
  {
    var op := s.db.operations[o];
    if step.DoReportClean? && step.o == o then Some(Report(Succeeded, None, Some(step.result), None))
    else if step.DoRetryCheckpoint? && step.o == o then Some(Report(Pending, op.phase, op.result, None))
    else if step.DoUpdateOther? && step.o == o then
      Some(Report(step.op.status, step.op.phase, step.op.result, step.op.error))
    else if step.DoFailInterrupted? && step.o == o then
      Some(Report(OperationStatus.Failed, step.phase, op.result, Some(step.error)))
    else if step.DoSaveRunning? && Saves(s, step.t, o) then Some(Report(InProgress, None, None, None))
    else if step.DoSaveCommit? && Saves(s, step.t, o) then Some(Report(Succeeded, op.phase, Some(step.result), None))
    else if step.DoSaveFail? && Saves(s, step.t, o) then
      Some(Report(OperationStatus.Failed, None, None, Some(step.error)))
    else None
  }

  /** A row shows the last report and otherwise never changes. */
  predicate OperationFollows(before: Operation, report: Option<Report>, row: Operation, now: int) {
    && row.request == before.request && row.workspaceId == before.workspaceId && row.key == before.key
    && row.sandboxId == before.sandboxId && row.createdAt == before.createdAt
    && match report
       case None => row == before
       case Some(r) => Report(row.status, row.phase, row.result, row.error) == r && row.updatedAt == now
  }

  /** Rows are filed as pending, and go with their workspace. */
  predicate OperationExists(s: World, step: Step, s': World, o: string) {
    && (o in s'.db.operations && o !in s.db.operations ==>
          && var op := s'.db.operations[o];
          && op.status == Pending && op.result == None && op.error == None && op.createdAt == s.clock
          && op.workspaceId in s.db.workspaces)
    && (o in s.db.operations && o !in s'.db.operations ==>
          || step == DoDeleteEphemeral(s.db.operations[o].workspaceId)
          || (step.DoRetireDelete? && step.t in s.tasks
              && s.tasks[step.t] == Retiring(s.db.operations[o].workspaceId)))
  }

  predicate OperationStep(s: World, step: Step, s': World, o: string) {
    && OperationExists(s, step, s', o)
    && (o in s.db.operations && o in s'.db.operations ==>
          OperationFollows(s.db.operations[o], Reports(s, step, o), s'.db.operations[o], s.clock))
  }

  // ---------------------------------------------------------------- one step

  lemma StillOperation(s: World, step: Step, s': World, o: string)
    requires s'.db.operations == s.db.operations
    requires o in s.db.operations ==> Reports(s, step, o) == None
    ensures OperationStep(s, step, s', o)
  {
  }

  lemma FiledOperation(s: World, step: Step, s': World, c: string, request: Request, w: string,
                       sandboxId: Option<string>, key: string, o: string)
    requires var r := CreateOperationTx(s.db, c, request, w, sandboxId, key, s.clock);
             r.Ok? && s'.db.operations == r.value.operations
    requires o in s.db.operations ==> Reports(s, step, o) == None
    ensures OperationStep(s, step, s', o)
  {
  }

  lemma ReportedOperation(s: World, step: Step, s': World, c: string, status: OperationStatus,
                          phase: Option<string>, result: Option<string>, error: Option<string>, o: string)
    requires var r := UpdateOperationTx(s.db, c, status, phase, result, error, s.clock);
             s'.db == if r.Ok? then r.value else s.db
    requires c in s.db.operations ==> Reports(s, step, c) == Some(Report(status, phase, result, error))
    requires o in s.db.operations && o != c ==> Reports(s, step, o) == None
    ensures OperationStep(s, step, s', o)
  {
  }

  lemma DeletedOperation(s: World, step: Step, s': World, w: string, o: string)
    requires step == DoDeleteEphemeral(w)
             || (step.DoRetireDelete? && step.t in s.tasks && s.tasks[step.t] == Retiring(w))
    requires var r := DeleteWorkspaceTx(s.db, w); r.Ok? && s'.db == r.value
    ensures OperationStep(s, step, s', o)
  {
  }

  lemma LifecycleOperation(s: World, step: Step, s': World, o: string)
    requires LifecycleNext(s, step, s')
    ensures OperationStep(s, step, s', o)
  {
    if step.DoDeleteEphemeral? {
      DeletedOperation(s, step, s', step.w, o);
    } else {
      StillOperation(s, step, s', o);
    }
  }

  lemma CreateOperation(s: World, step: Step, s': World, o: string)
    requires CreateNext(s, step, s')
    ensures OperationStep(s, step, s', o)
  {
    StillOperation(s, step, s', o);
  }

  lemma TerminateOperation(s: World, step: Step, s': World, o: string)
    requires TerminateNext(s, step, s')
    ensures OperationStep(s, step, s', o)
  {
    StillOperation(s, step, s', o);
  }

  lemma RequestOperation(s: World, step: Step, s': World, o: string)
    requires RequestNext(s, step, s')
    ensures OperationStep(s, step, s', o)
  {
    if step.DoOpenOther? {
      FiledOperation(s, step, s', step.o, step.op.request, step.op.workspaceId, step.op.sandboxId, step.op.key, o);
    } else if step.DoUpdateOther? {
      ReportedOperation(s, step, s', step.o, step.op.status, step.op.phase, step.op.result, step.op.error, o);
    } else if step.DoOpenCheckpoint? {
      var g := s.db.workspaces[step.w].generation;
      FiledOperation(s, step, s', step.o, Checkpoint(g), step.w, None, CheckpointKey(step.w, g), o);
    } else if step.DoReportClean? {
      ReportedOperation(s, step, s', step.o, Succeeded, None, Some(step.result), None, o);
    } else if step.DoRetryCheckpoint? {
      ReportedOperation(s, step, s', step.o, Pending, s.db.operations[step.o].phase,
                        s.db.operations[step.o].result, None, o);
    } else {
      StillOperation(s, step, s', o);
    }
  }

  lemma SaveStartOperation(s: World, s': World, w: string, c: string, o: string)
    requires SaveStart(s, s', w, c)
    ensures OperationStep(s, DoSaveStart(w, c), s', o)
  {
    var g := s.db.workspaces[w].generation;
    FiledOperation(s, DoSaveStart(w, c), s', c, Checkpoint(g), w, None, CheckpointKey(w, g), o);
  }

  lemma SaveCommitOperation(s: World, s': World, t: nat, revision: string, result: string, o: string)
    requires SaveCommit(s, s', t, revision, result)
    ensures OperationStep(s, DoSaveCommit(t, revision, result), s', o)
  {
  }

  lemma SaveOperation(s: World, step: Step, s': World, o: string)
    requires SaveNext(s, step, s')
    ensures OperationStep(s, step, s', o)
  {
    if step.DoSaveStart? {
      SaveStartOperation(s, s', step.w, step.o, o);
    } else if step.DoSaveRunning? {
      ReportedOperation(s, step, s', s.tasks[step.t].operationId, InProgress, None, None, None, o);
    } else if step.DoSaveCommit? {
      SaveCommitOperation(s, s', step.t, step.revision, step.result, o);
    } else if step.DoSaveFail? {
      ReportedOperation(s, step, s', s.tasks[step.t].operationId, OperationStatus.Failed, None, None,
                        Some(step.error), o);
    } else {
      StillOperation(s, step, s', o);
    }
  }

  lemma RestoreOperation(s: World, step: Step, s': World, o: string)
    requires RestoreNext(s, step, s')
    ensures OperationStep(s, step, s', o)
  {
    if step.DoFetchStart? {
      var w, head := s.tasks[step.t].workspaceId, s.tasks[step.t].head.value;
      FiledOperation(s, step, s', step.o, Restore(head), w, None, RestoreKey(w, head), o);
    } else {
      StillOperation(s, step, s', o);
    }
  }

  lemma RetainOperation(s: World, step: Step, s': World, o: string)
    requires RetainNext(s, step, s')
    ensures OperationStep(s, step, s', o)
  {
    if step.DoRetireStart? {
      FiledOperation(s, step, s', step.o, Retire, step.w, None, RetireKey(step.w), o);
    } else if step.DoRetireDelete? {
      DeletedOperation(s, step, s', s.tasks[step.t].workspaceId, o);
    } else {
      StillOperation(s, step, s', o);
    }
  }

  lemma StartupOperation(s: World, step: Step, s': World, o: string)
    requires StartupNext(s, step, s')
    ensures OperationStep(s, step, s', o)
  {
    if step.DoFailInterrupted? {
      ReportedOperation(s, step, s', step.o, OperationStatus.Failed, step.phase, s.db.operations[step.o].result,
                        Some(step.error), o);
    } else {
      StillOperation(s, step, s', o);
    }
  }

  /** Every step treats every operation row as the table says. */
  lemma NextOperation(s: World, step: Step, s': World, o: string)
    requires Next(s, step, s')
    ensures OperationStep(s, step, s', o)
  {
    if LifecycleNext(s, step, s') {
      LifecycleOperation(s, step, s', o);
    } else if CreateNext(s, step, s') {
      CreateOperation(s, step, s', o);
    } else if TerminateNext(s, step, s') {
      TerminateOperation(s, step, s', o);
    } else if RequestNext(s, step, s') {
      RequestOperation(s, step, s', o);
    } else if SaveNext(s, step, s') {
      SaveOperation(s, step, s', o);
    } else if RestoreNext(s, step, s') {
      RestoreOperation(s, step, s', o);
    } else if RetainNext(s, step, s') {
      RetainOperation(s, step, s', o);
    } else if StartupNext(s, step, s') {
      StartupOperation(s, step, s', o);
    }
  }

  lemma RunOperation(run: Run, i: nat, o: string)
    requires run.Valid() && i < |run.steps|
    ensures OperationStep(run.worlds[i], run.steps[i], run.worlds[i + 1], o)
  {
    assert run.StepAt(i);
    NextOperation(run.worlds[i], run.steps[i], run.worlds[i + 1], o);
  }

  // ---------------------------------------------------------------- a checkpoint reported done is done

  lemma NeverStored(s: World, w: string)
    requires Inv(s) && w in s.db.workspaces && w in s.minted
    ensures s.db.workspaces[w].status in {DetachedClean, Running, Deleting}
  {
    assert KindFits(s.db.workspaces[w], w in s.minted);
  }

  lemma BecomesClean(s: World, step: Step, w: string, row: Workspace)
    requires w in s.db.workspaces && RowFollows(s, step, w, s.db.workspaces[w], row)
    requires s.db.workspaces[w].status in {DetachedClean, Running, Deleting} && row.status == DetachedClean
    ensures s.db.workspaces[w].status == DetachedClean && row.generation == s.db.workspaces[w].generation
  {
  }

  /** An ephemeral workspace that is clean has not been claimed yet. */
  lemma {:induction false} EphemeralCleanIsNew(run: Run, i: nat, w: string)
    requires run.Valid() && i < |run.worlds| && InStatus(run.worlds[i], w, DetachedClean)
    requires run.worlds[i].db.workspaces[w].kind == Ephemeral
    ensures run.worlds[i].db.workspaces[w].generation == 0
  {
    assert i > 0;
    var s := run.worlds[i - 1];
    RunRow(run, i - 1, w);
    RunInv(run, i - 1);
    if w in s.db.workspaces {
      KindIsKnown(s, w);
      NeverStored(s, w);
      BecomesClean(s, run.steps[i - 1], w, run.worlds[i].db.workspaces[w]);
      EphemeralCleanIsNew(run, i - 1, w);
    }
  }

  /** Step `j` commits generation `g` of `w`. */
  ghost predicate SavedAt(run: Run, j: nat, w: string, g: nat)
    requires run.Valid() && j < |run.steps|
  {
    run.steps[j].DoSaveCommit? && CommittedAt(run, j, w, run.steps[j].revision, g)
  }

  /** A clean workspace has been saved at its generation, or never claimed. */
  lemma CleanIsSaved(run: Run, i: nat, w: string) returns (j: nat)
    requires run.Valid() && i < |run.worlds| && InStatus(run.worlds[i], w, DetachedClean)
    ensures var g := run.worlds[i].db.workspaces[w].generation;
            g == 0 || (j < i && SavedAt(run, j, w, g))
  {
    j := 0;
    if run.worlds[i].db.workspaces[w].kind == Ephemeral {
      EphemeralCleanIsNew(run, i, w);
    } else {
      j := NoGenerationLost(run, i, w);
    }
  }

  /** What the steps that report success have found. */
  ghost predicate MayReport(s: World, step: Step) {
    && (step.DoReportClean? ==>
          && InStatus(s, step.w, DetachedClean) && step.o in s.db.operations
          && s.db.operations[step.o].workspaceId == step.w
          && s.db.operations[step.o].request == Checkpoint(s.db.workspaces[step.w].generation))
    && (step.DoUpdateOther? ==> step.o in s.db.operations && !s.db.operations[step.o].request.Checkpoint?)
  }

  lemma StepMayReport(s: World, step: Step, s': World)
    requires RequestNext(s, step, s') || (!step.DoReportClean? && !step.DoUpdateOther?)
    ensures MayReport(s, step)
  {
  }

  lemma RequestsOnly(s: World, step: Step, s': World)
    requires Next(s, step, s')
    ensures RequestNext(s, step, s') || (!step.DoReportClean? && !step.DoUpdateOther?)
  {
  }

  /** Success is reported by the commit itself, or to a request that finds the workspace clean. */
  lemma SuccessIsReported(s: World, step: Step, s': World, o: string)
    requires MayReport(s, step) && OperationStep(s, step, s', o)
    requires o in s.db.operations && o in s'.db.operations && s.db.operations[o].request.Checkpoint?
    requires s.db.operations[o].status != Succeeded && s'.db.operations[o].status == Succeeded
    ensures var op := s.db.operations[o];
            || (step.DoSaveCommit? && Saves(s, step.t, o))
            || (step.DoReportClean? && InStatus(s, op.workspaceId, DetachedClean)
                && s.db.workspaces[op.workspaceId].generation == op.request.generation)
  {
  }

  lemma SavesItsOperation(s: World, t: nat, o: string)
    requires Inv(s) && Saves(s, t, o)
    ensures o in s.db.operations
    ensures s.db.operations[o].request == Checkpoint(s.tasks[t].generation)
    ensures s.db.operations[o].workspaceId == s.tasks[t].workspaceId
  {
    var task := s.tasks[t];
    assert TaskFits(s, task);
    assert OperationFits(s.db.operations[o], s.db.workspaces);
    CheckpointKeyOwner(s.db.operations[o], task.workspaceId, task.generation);
  }

  lemma RunMayReport(run: Run, i: nat)
    requires run.Valid() && i < |run.steps|
    ensures MayReport(run.worlds[i], run.steps[i])
  {
    assert run.StepAt(i);
    RequestsOnly(run.worlds[i], run.steps[i], run.worlds[i + 1]);
    StepMayReport(run.worlds[i], run.steps[i], run.worlds[i + 1]);
  }

  lemma RunSaves(run: Run, i: nat, t: nat, o: string)
    requires run.Valid() && i < |run.worlds| && Saves(run.worlds[i], t, o)
    ensures var s := run.worlds[i];
            && o in s.db.operations && s.db.operations[o].request == Checkpoint(s.tasks[t].generation)
            && s.db.operations[o].workspaceId == s.tasks[t].workspaceId
  {
    RunInv(run, i);
    SavesItsOperation(run.worlds[i], t, o);
  }

  /**
    What a client may rely on: a checkpoint operation that has succeeded is for a generation that
    some earlier step committed, or for a workspace that was never claimed.
   */
  lemma {:induction false} SucceededMeansSaved(run: Run, i: nat, o: string) returns (j: nat)
    requires run.Valid() && i < |run.worlds| && o in run.worlds[i].db.operations
    requires var op := run.worlds[i].db.operations[o]; op.request.Checkpoint? && op.status == Succeeded
    ensures var op := run.worlds[i].db.operations[o];
            op.request.generation == 0 || (j < i && SavedAt(run, j, op.workspaceId, op.request.generation))
  {
    assert i > 0;
    var s, step, s' := run.worlds[i - 1], run.steps[i - 1], run.worlds[i];
    RunOperation(run, i - 1, o);
    if s.db.operations[o].status == Succeeded {
      j := SucceededMeansSaved(run, i - 1, o);
    } else {
      RunMayReport(run, i - 1);
      SuccessIsReported(s, step, s', o);
      if step.DoSaveCommit? && Saves(s, step.t, o) {
        RunSaves(run, i - 1, step.t, o);
        j := i - 1;
      } else {
        j := CleanIsSaved(run, i - 1, s.db.operations[o].workspaceId);
      }
    }
  }
}
