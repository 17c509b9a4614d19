/** What the life of a workspace row means over whole runs: restores, evictions, claims and volumes. */
module ManagerRestore {
  import opened Prelude
  import opened StateTables
  import opened OperationKeys
  import opened ManagerProtocol
  import opened ManagerInvariant
  import opened ManagerSteps
  import opened ManagerStatus
  import opened ManagerTheorems

  // ---------------------------------------------------------------- restores

  /** Step `k` ends a fetch of `revision` into `w`, with this success. */
  ghost predicate FetchEndsAt(run: Run, k: nat, w: string, revision: string, fetched: bool)
    requires run.Valid() && k < |run.steps|
  {
    && run.steps[k].DoFetchEnd? && run.steps[k].fetched == fetched
    && run.steps[k].t in run.worlds[k].tasks
    && run.worlds[k].tasks[run.steps[k].t] == Fetching(w, revision)
  }

  /** A fetch at work fetches the head of a workspace that is restoring. */
  lemma FetchIsOfHead(run: Run, k: nat, w: string, revision: string, fetched: bool)
    requires run.Valid() && k < |run.steps| && FetchEndsAt(run, k, w, revision, fetched)
    ensures InStatus(run.worlds[k], w, Restoring) && run.worlds[k].db.workspaces[w].head == Some(revision)
    ensures run.worlds[k].db.workspaces[w].active.None?
  {
    RunInv(run, k);
    assert TaskFits(run.worlds[k], run.worlds[k].tasks[run.steps[k].t]);
    KindIsKnown(run.worlds[k], w);
  }

  /** The end of a fetch: clean with what was fetched if the runner succeeded, else remote-only again. */
  lemma FetchDecides(run: Run, k: nat, w: string, revision: string, fetched: bool)
    requires run.Valid() && k < |run.steps| && FetchEndsAt(run, k, w, revision, fetched)
    ensures w in run.worlds[k].db.workspaces && w in run.worlds[k + 1].db.workspaces
    ensures var before, row := run.worlds[k].db.workspaces[w], run.worlds[k + 1].db.workspaces[w];
            && row.status == (if fetched then DetachedClean else RemoteOnly)
            && row.head == before.head == Some(revision) && row.generation == before.generation
  {
    FetchIsOfHead(run, k, w, revision, fetched);
    RunRow(run, k, w);
  }

  /** A restoring workspace is recoverable and nobody retires it. */
  lemma RestoringIsKept(s: World, step: Step, s': World, w: string)
    requires Inv(s) && InStatus(s, w, Restoring) && RowExists(s, step, s', w)
    ensures w in s'.db.workspaces && s.db.workspaces[w].active.None? && s.db.workspaces[w].head.Some?
  {
    KindIsKnown(s, w);
    assert KindFits(s.db.workspaces[w], w in s.minted);
    assert IsDurable(w, s.db.workspaces[w], s.headGeneration);
    if step.DoRetireDelete? && step.t in s.tasks {
      assert TaskFits(s, s.tasks[step.t]);
    }
  }

  lemma RestoringMoves(s: World, step: Step, w: string, row: Workspace)
    requires InStatus(s, w, Restoring) && s.db.workspaces[w].active.None?
    requires RowFollows(s, step, w, s.db.workspaces[w], row)
    ensures row.status != Restoring ==>
              if step.DoFetchEnd? then
                WorksOn(s, step.t, w) && row.status == if step.fetched then DetachedClean else RemoteOnly
              else step == DoRevertInterrupted(w, Restoring) && row.status == RemoteOnly
    ensures row.status != Restoring ==>
              row.head == s.db.workspaces[w].head && row.generation == s.db.workspaces[w].generation
  {
  }

  lemma FetchEndIsFetch(run: Run, i: nat, w: string)
    requires run.Valid() && i < |run.steps| && run.steps[i].DoFetchEnd?
    requires WorksOn(run.worlds[i], run.steps[i].t, w)
    requires InStatus(run.worlds[i], w, Restoring) && run.worlds[i].db.workspaces[w].head.Some?
    ensures FetchEndsAt(run, i, w, run.worlds[i].db.workspaces[w].head.value, run.steps[i].fetched)
  {
    assert run.StepAt(i);
    LockedStep(run.worlds[i], run.steps[i], run.worlds[i + 1]);
    RunInv(run, i);
    assert TaskFits(run.worlds[i], run.worlds[i].tasks[run.steps[i].t]);
  }

  /** The coroutines that make these steps. */
  lemma LockedStep(s: World, step: Step, s': World)
    requires Next(s, step, s')
    ensures step.DoFetchEnd? ==> step.t in s.tasks && s.tasks[step.t].Fetching?
    ensures step.DoSaveCommit? ==> step.t in s.tasks && s.tasks[step.t].Saving?
  {
  }

  /**
    A workspace leaves restoring only by the end of the fetch of its head, or by recovery after a
    crash; it is clean exactly if the runner succeeded, and keeps head and generation.
   */
  lemma RestoringEnds(run: Run, i: nat, w: string)
    requires run.Valid() && i < |run.steps|
    requires InStatus(run.worlds[i], w, Restoring) && !InStatus(run.worlds[i + 1], w, Restoring)
    ensures w in run.worlds[i + 1].db.workspaces && run.worlds[i].db.workspaces[w].head.Some?
    ensures var before, row := run.worlds[i].db.workspaces[w], run.worlds[i + 1].db.workspaces[w];
            && row.head == before.head && row.generation == before.generation
            && (|| (row.status == DetachedClean && FetchEndsAt(run, i, w, before.head.value, true))
                || (row.status == RemoteOnly && FetchEndsAt(run, i, w, before.head.value, false))
                || (row.status == RemoteOnly && run.steps[i] == DoRevertInterrupted(w, Restoring)))
  {
    RunRow(run, i, w);
    RunInv(run, i);
    RestoringIsKept(run.worlds[i], run.steps[i], run.worlds[i + 1], w);
    RestoringMoves(run.worlds[i], run.steps[i], w, run.worlds[i + 1].db.workspaces[w]);
    if run.steps[i].DoFetchEnd? {
      FetchEndIsFetch(run, i, w);
    }
  }

  // ---------------------------------------------------------------- clean after remote-only

  /** Between two claims a saved workspace is clean, remote-only, restoring or on its way out. */
  predicate AtRest(status: WorkspaceStatus) {
    status in {DetachedClean, RemoteOnly, Restoring, Deleting}
  }

  /** `w` exists from `i` to `j` and is not claimed in between. */
  ghost predicate Unclaimed(run: Run, i: nat, j: nat, w: string)
    requires run.Valid() && i <= j < |run.worlds|
  {
    && (forall k :: i <= k <= j ==> w in run.worlds[k].db.workspaces)
    && (forall k :: i <= k < j ==> !(run.steps[k].DoClaim? && run.steps[k].w == w))
  }

  lemma RestMoves(s: World, step: Step, w: string, row: Workspace)
    requires w in s.db.workspaces && AtRest(s.db.workspaces[w].status) && s.db.workspaces[w].active.None?
    requires RowFollows(s, step, w, s.db.workspaces[w], row) && !(step.DoClaim? && step.w == w)
    requires step.DoSaveCommit? && WorksOn(s, step.t, w) ==> s.db.workspaces[w].status == Checkpointing
    ensures AtRest(row.status)
    ensures row.head == s.db.workspaces[w].head && row.generation == s.db.workspaces[w].generation
    ensures row.status == DetachedClean && s.db.workspaces[w].status != DetachedClean ==>
              s.db.workspaces[w].status == Restoring
  {
  }

  lemma StepAtRest(run: Run, i: nat, w: string)
    requires run.Valid() && i < |run.steps| && Unclaimed(run, i, i + 1, w)
    requires AtRest(run.worlds[i].db.workspaces[w].status)
    ensures var before, row := run.worlds[i].db.workspaces[w], run.worlds[i + 1].db.workspaces[w];
            && AtRest(row.status) && row.head == before.head && row.generation == before.generation
            && (row.status == DetachedClean && before.status != DetachedClean ==> before.status == Restoring)
  {
    var s, step := run.worlds[i], run.steps[i];
    RunRow(run, i, w);
    RunInv(run, i);
    KindIsKnown(s, w);
    if step.DoSaveCommit? && WorksOn(s, step.t, w) {
      assert run.StepAt(i);
      LockedStep(s, step, run.worlds[i + 1]);
      assert TaskFits(s, s.tasks[step.t]);
    }
    RestMoves(s, step, w, run.worlds[i + 1].db.workspaces[w]);
  }

  /**
    A workspace that was remote-only and is clean later, without a claim in between, holds what a
    successful fetch of its current head has brought: that fetch ended in between.
   */
  lemma {:induction false} CleanWasFetched(run: Run, i: nat, j: nat, w: string) returns (k: nat)
    requires run.Valid() && i <= j < |run.worlds| && Unclaimed(run, i, j, w)
    requires run.worlds[i].db.workspaces[w].status == RemoteOnly
    ensures AtRest(run.worlds[j].db.workspaces[w].status)
    ensures SameContent(run.worlds[i].db.workspaces[w], run.worlds[j].db.workspaces[w])
    ensures run.worlds[j].db.workspaces[w].status == DetachedClean ==>
              && i <= k < j && run.worlds[j].db.workspaces[w].head.Some?
              && FetchEndsAt(run, k, w, run.worlds[j].db.workspaces[w].head.value, true)
    decreases j - i
  {
    k := i;
    if i < j {
      k := CleanWasFetched(run, i, j - 1, w);
      StepAtRest(run, j - 1, w);
      if InStatus(run.worlds[j - 1], w, Restoring) && InStatus(run.worlds[j], w, DetachedClean) {
        RestoringEnds(run, j - 1, w);
        k := j - 1;
      }
    }
  }

  predicate SameContent(before: Workspace, row: Workspace) {
    row.head == before.head && row.generation == before.generation
  }

  // ---------------------------------------------------------------- evictions

  /** A local volume is given up only after the row has been left alone for the retention time. */
  lemma {:induction false} UntouchedSince(run: Run, i: nat, j: nat, w: string)
    requires run.Valid() && i <= j < |run.worlds|
    requires w in run.worlds[j].db.workspaces
    requires run.worlds[j].db.workspaces[w].updatedAt < run.worlds[i].clock
    ensures w in run.worlds[i].db.workspaces
    ensures run.worlds[i].db.workspaces[w] == run.worlds[j].db.workspaces[w]
    decreases j - i
  {
    if i < j {
      ClockGrows(run, i, j - 1, w);
      RunRow(run, j - 1, w);
      UntouchedSince(run, i, j - 1, w);
    }
  }

  lemma {:induction false} ClockGrows(run: Run, i: nat, j: nat, w: string)
    requires run.Valid() && i <= j < |run.worlds|
    ensures run.worlds[i].clock <= run.worlds[j].clock
    decreases j - i
  {
    if i < j {
      ClockGrows(run, i, j - 1, w);
      RunHistory(run, j - 1, w);
    }
  }

  /** An eviction starts only when nothing has changed the row within the retention time. */
  lemma EvictionHonoursRetention(run: Run, i: nat, j: nat, w: string)
    requires run.Valid() && i <= j < |run.steps| && run.steps[j] == DoEvictStart(w)
    requires run.worlds[i].clock > run.worlds[j].clock - run.worlds[j].retention
    ensures w in run.worlds[i].db.workspaces && w in run.worlds[j].db.workspaces
    ensures run.worlds[i].db.workspaces[w] == run.worlds[j].db.workspaces[w]
    ensures run.worlds[j].db.workspaces[w].status == DetachedClean && run.worlds[j].db.workspaces[w].head.Some?
  {
    assert run.StepAt(j);
    UntouchedSince(run, i, j, w);
  }

  // ---------------------------------------------------------------- claims

  /** A claim by a new sandbox is taken exactly for a workspace that is clean, dirty or remote-only. */
  lemma ClaimIsTaken(run: Run, i: nat, w: string, b: string, host: string, ttl: int)
    requires run.Valid() && i < |run.worlds| && b !in run.worlds[i].usedSandboxes
    ensures var s := run.worlds[i];
            var r := ClaimTx(s.db, w, b, host, host, s.clock, s.clock + ttl);
            && (r == Err(NotFound) <==> w !in s.db.workspaces)
            && (r.Ok? <==> w in s.db.workspaces
                           && s.db.workspaces[w].status in {DetachedClean, DetachedDirty, RemoteOnly})
  {
    var s := run.worlds[i];
    RunInv(run, i);
    if w in s.db.workspaces {
      KindIsKnown(s, w);
      NeverDeleted(run, i, w);
    }
  }

  /** No row is ever kept in the status `deleted`: the row itself goes. */
  lemma {:induction false} NeverDeleted(run: Run, i: nat, w: string)
    requires run.Valid() && i < |run.worlds| && w in run.worlds[i].db.workspaces
    ensures run.worlds[i].db.workspaces[w].status != Deleted
  {
    assert i > 0;
    RunRow(run, i - 1, w);
    if w in run.worlds[i - 1].db.workspaces {
      NeverDeleted(run, i - 1, w);
    }
  }

  // ---------------------------------------------------------------- volumes and revisions

  lemma NewVolume(s: World, step: Step, s': World, w: string, v: string)
    requires LifecycleNext(s, step, s') && w in s'.db.workspaces && w !in s.db.workspaces && v in s.db.workspaces
    ensures s'.db.workspaces[w].volume != s.db.workspaces[v].volume
  {
  }

  lemma CreatedByLifecycle(s: World, step: Step, s': World)
    requires Next(s, step, s') && (step.DoCreateRecoverable? || step.DoMintEphemeral?)
    ensures LifecycleNext(s, step, s')
  {
  }

  lemma NewVolumeInRun(run: Run, i: nat, w: string, v: string)
    requires run.Valid() && i < |run.steps|
    requires w in run.worlds[i + 1].db.workspaces && w !in run.worlds[i].db.workspaces
    requires v in run.worlds[i].db.workspaces
    ensures run.worlds[i + 1].db.workspaces[w].volume != run.worlds[i].db.workspaces[v].volume
  {
    RunRow(run, i, w);
    assert run.StepAt(i);
    CreatedByLifecycle(run.worlds[i], run.steps[i], run.worlds[i + 1]);
    NewVolume(run.worlds[i], run.steps[i], run.worlds[i + 1], w, v);
  }

  /** No two workspaces ever share a volume. */
  lemma {:induction false} VolumesApart(run: Run, i: nat, v: string, w: string)
    requires run.Valid() && i < |run.worlds|
    requires v in run.worlds[i].db.workspaces && w in run.worlds[i].db.workspaces && v != w
    ensures run.worlds[i].db.workspaces[v].volume != run.worlds[i].db.workspaces[w].volume
  {
    assert i > 0;
    var before := run.worlds[i - 1].db.workspaces;
    RunRow(run, i - 1, v);
    RunRow(run, i - 1, w);
    if v in before && w in before {
      VolumesApart(run, i - 1, v, w);
    } else if v in before {
      NewVolumeInRun(run, i - 1, w, v);
    } else if w in before {
      NewVolumeInRun(run, i - 1, v, w);
    }
  }

  /** A revision belongs to `w`. */
  predicate Recorded(s: World, revision: string, w: string) {
    revision in s.db.revisions && s.db.revisions[revision].workspaceId == w
  }

  /** Revisions are recorded by the commit of their workspace and stay with it. */
  predicate RevisionStep(s: World, step: Step, s': World, revision: string, w: string) {
    && (Recorded(s, revision, w) && w in s'.db.workspaces && w in s.db.workspaces ==> Recorded(s', revision, w))
    && (step.DoSaveCommit? && WorksOn(s, step.t, w) && step.revision == revision ==> Recorded(s', revision, w))
  }

  lemma StillRevision(s: World, step: Step, s': World, revision: string, w: string)
    requires s'.db.revisions == s.db.revisions && !step.DoSaveCommit?
    ensures RevisionStep(s, step, s', revision, w)
  {
  }

  lemma DeletedRevision(s: World, step: Step, s': World, v: string, revision: string, w: string)
    requires !step.DoSaveCommit?
    requires var r := DeleteWorkspaceTx(s.db, v); r.Ok? && s'.db == r.value
    ensures RevisionStep(s, step, s', revision, w)
  {
  }

  lemma CommittedRevision(s: World, s': World, t: nat, committed: string, result: string, revision: string, w: string)
    requires SaveCommit(s, s', t, committed, result)
    ensures RevisionStep(s, DoSaveCommit(t, committed, result), s', revision, w)
  {
  }

  lemma LifecycleRevision(s: World, step: Step, s': World, revision: string, w: string)
    requires LifecycleNext(s, step, s')
    ensures RevisionStep(s, step, s', revision, w)
  {
    if step.DoDeleteEphemeral? {
      DeletedRevision(s, step, s', step.w, revision, w);
    } else {
      StillRevision(s, step, s', revision, w);
    }
  }

  lemma CreateRevision(s: World, step: Step, s': World, revision: string, w: string)
    requires CreateNext(s, step, s')
    ensures RevisionStep(s, step, s', revision, w)
  {
    StillRevision(s, step, s', revision, w);
  }

  lemma TerminateRevision(s: World, step: Step, s': World, revision: string, w: string)
    requires TerminateNext(s, step, s')
    ensures RevisionStep(s, step, s', revision, w)
  {
  }

  lemma RequestRevision(s: World, step: Step, s': World, revision: string, w: string)
    requires RequestNext(s, step, s')
    ensures RevisionStep(s, step, s', revision, w)
  {
  }

  lemma SaveRevision(s: World, step: Step, s': World, revision: string, w: string)
    requires SaveNext(s, step, s')
    ensures RevisionStep(s, step, s', revision, w)
  {
    if step.DoSaveCommit? {
      CommittedRevision(s, s', step.t, step.revision, step.result, revision, w);
    } else {
      StillRevision(s, step, s', revision, w);
    }
  }

  lemma RestoreRevision(s: World, step: Step, s': World, revision: string, w: string)
    requires RestoreNext(s, step, s')
    ensures RevisionStep(s, step, s', revision, w)
  {
  }

  lemma RetainRevision(s: World, step: Step, s': World, revision: string, w: string)
    requires RetainNext(s, step, s')
    ensures RevisionStep(s, step, s', revision, w)
  {
    if step.DoRetireDelete? {
      DeletedRevision(s, step, s', s.tasks[step.t].workspaceId, revision, w);
    } else {
      StillRevision(s, step, s', revision, w);
    }
  }

  lemma StartupRevision(s: World, step: Step, s': World, revision: string, w: string)
    requires StartupNext(s, step, s')
    ensures RevisionStep(s, step, s', revision, w)
  {
  }

  lemma NextRevision(s: World, step: Step, s': World, revision: string, w: string)
    requires Next(s, step, s')
    ensures RevisionStep(s, step, s', revision, w)
  {
    if LifecycleNext(s, step, s') {
      LifecycleRevision(s, step, s', revision, w);
    } else if CreateNext(s, step, s') {
      CreateRevision(s, step, s', revision, w);
    } else if TerminateNext(s, step, s') {
      TerminateRevision(s, step, s', revision, w);
    } else if RequestNext(s, step, s') {
      RequestRevision(s, step, s', revision, w);
    } else if SaveNext(s, step, s') {
      SaveRevision(s, step, s', revision, w);
    } else if RestoreNext(s, step, s') {
      RestoreRevision(s, step, s', revision, w);
    } else if RetainNext(s, step, s') {
      RetainRevision(s, step, s', revision, w);
    } else if StartupNext(s, step, s') {
      StartupRevision(s, step, s', revision, w);
    }
  }

  lemma RunRevision(run: Run, i: nat, revision: string, w: string)
    requires run.Valid() && i < |run.steps|
    ensures RevisionStep(run.worlds[i], run.steps[i], run.worlds[i + 1], revision, w)
  {
    assert run.StepAt(i);
    NextRevision(run.worlds[i], run.steps[i], run.worlds[i + 1], revision, w);
  }

  /** The head of a workspace is one of its own recorded revisions. */
  lemma {:induction false} HeadIsRecorded(run: Run, i: nat, w: string)
    requires run.Valid() && i < |run.worlds| && HasHead(run.worlds[i], w)
    ensures Recorded(run.worlds[i], run.worlds[i].db.workspaces[w].head.value, w)
  {
    assert i > 0;
    var s := run.worlds[i - 1];
    var revision := run.worlds[i].db.workspaces[w].head.value;
    RunRow(run, i - 1, w);
    RunRevision(run, i - 1, revision, w);
    if s.db.workspaces[w].head == Some(revision) {
      HeadIsRecorded(run, i - 1, w);
    }
  }

  // ---------------------------------------------------------------- candidates of the reaper

  predicate HasUnfinished(s: World, w: string) {
    exists o :: o in s.db.operations && s.db.operations[o].workspaceId == w
                && s.db.operations[o].status in {Pending, InProgress}
  }

  /** Offered for eviction are the recoverable idle workspaces whose eviction may start. */
  lemma CleanupCandidateExactly(s: World, w: string)
    requires Inv(s) && s.mode == Serving && LockFree(s, w)
    ensures w in CleanupCandidates(s.db, s.clock - s.retention) <==>
              && (exists s' :: EvictStart(s, s', w))
              && s.db.workspaces[w].kind == Recoverable && !HasUnfinished(s, w)
  {
    if w in s.db.workspaces && s.db.workspaces[w].head.Some? && s.db.workspaces[w].active.None?
       && s.db.workspaces[w].status == DetachedClean && s.db.workspaces[w].updatedAt <= s.clock - s.retention {
      assert EvictStart(s, AddTask(s, Evicting(w)), w);
    }
  }

  /** Offered for retirement are the recoverable idle workspaces whose retirement is due. */
  lemma RetireCandidateExactly(s: World, w: string)
    requires Inv(s) && w in s.db.workspaces && s.db.workspaces[w].kind == Recoverable
    ensures w in RetireCandidates(s.db, s.clock) <==>
              && !HasUnfinished(s, w)
              && w in s.releasedAt && s.releasedAt[w] + s.grace <= s.clock
              && s.db.workspaces[w].status in {DetachedClean, RemoteOnly, Deleting}
  {
    KindIsKnown(s, w);
    assert ScheduleFits(w, s.db.workspaces[w], s.releasedAt, s.grace);
  }

  /** Whatever the reaper is offered it may retire at once, if nobody holds the lock. */
  lemma RetireCandidateMayStart(s: World, w: string, unused: string) returns (o: string)
    requires Inv(s) && s.mode == Serving && LockFree(s, w) && w in RetireCandidates(s.db, s.clock)
    requires unused !in s.db.operations
    ensures exists s' :: RetireStart(s, s', w, o)
  {
    o := unused;
    var created := CreateOperationTx(s.db, o, Retire, w, None, RetireKey(w), s.clock).value;
    var moved := if s.db.workspaces[w].status == Deleting then created
                 else TransitionTx(created, w, {DetachedClean, RemoteOnly}, Deleting, s.clock).value;
    assert RetireStart(s, AddTask(s, Retiring(w)).(db := moved), w, o);
  }
}
