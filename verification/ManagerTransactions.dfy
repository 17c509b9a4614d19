/** Each `StateStore` transaction keeps the Manager's invariant. */
module ManagerTransactions {
  import opened Prelude
  import opened StateTables
  import opened OperationKeys
  import opened ManagerProtocol
  import opened ManagerInvariant

  // ---------------------------------------------------------------- maps with one entry replaced

  lemma PutKinds(ws: Workspaces, w: string, row: Workspace, minted: set<string>, minted': set<string>,
                 known: set<string>)
    requires Kinds(ws, minted, known) && KindFits(row, w in minted')
    requires minted <= minted' <= minted + {w}
    ensures Kinds(ws[w := row], minted', known + {w})
  {
  }

  lemma PutDurable(ws: Workspaces, w: string, row: Workspace, heads: map<string, nat>, heads': map<string, nat>)
    requires Durable(ws, heads) && IsDurable(w, row, heads')
    requires heads'.Keys <= heads.Keys + {w}
    requires forall v :: v in heads && v != w ==> v in heads' && heads'[v] == heads[v]
    ensures Durable(ws[w := row], heads')
  {
    forall v | v in ws && v != w
      ensures IsDurable(v, ws[v], heads')
    {
      assert IsDurable(v, ws[v], heads);
    }
  }

  lemma PutScheduled(ws: Workspaces, w: string, row: Workspace, at: map<string, int>, at': map<string, int>,
                     grace: nat)
    requires Scheduled(ws, at, grace) && ScheduleFits(w, row, at', grace)
    requires at'.Keys <= at.Keys + {w}
    requires forall v :: v in at && v != w ==> v in at' && at'[v] == at[v]
    ensures Scheduled(ws[w := row], at', grace)
  {
    forall v | v in ws && v != w
      ensures ScheduleFits(v, ws[v], at', grace)
    {
      assert ScheduleFits(v, ws[v], at, grace);
    }
  }

  /** The row keeps its generation and gets no dirtier, or it starts a new generation. */
  predicate NoDirtier(old': Workspace, row: Workspace) {
    || row.generation > old'.generation
    || (row.generation == old'.generation && (IsDirty(row.status) ==> IsDirty(old'.status)))
  }

  lemma PutOperations(ws: Workspaces, w: string, row: Workspace, ops: map<string, Operation>)
    requires OperationsFit(ws, ops) && (w in ws ==> NoDirtier(ws[w], row))
    ensures OperationsFit(ws[w := row], ops)
  {
    forall o | o in ops
      ensures OperationFits(ops[o], ws[w := row])
    {
      assert OperationFits(ops[o], ws);
    }
  }

  /** One workspace row and one sandbox row of that workspace are replaced or inserted. */
  lemma PutWriter(ws: Workspaces, w: string, row: Workspace, sandboxes: Sandboxes, b: string, box: Sandbox,
                  used: set<string>)
    requires Writers(ws, sandboxes) && Rows(ws, sandboxes, used)
    requires b in sandboxes ==> sandboxes[b].workspaceId == w
    requires WriterFits(w, row, sandboxes[b := box]) && RowFits(b, box, ws[w := row])
    requires w in ws ==> row.active == ws[w].active || ws[w].active.None? || ws[w].active == Some(b)
    ensures Writers(ws[w := row], sandboxes[b := box])
    ensures Rows(ws[w := row], sandboxes[b := box], used + {b})
  {
    forall v | v in ws && v != w
      ensures WriterFits(v, ws[v], sandboxes[b := box])
    {
      assert WriterFits(v, ws[v], sandboxes);
    }
    forall c | c in sandboxes && c != b
      ensures RowFits(c, sandboxes[c], ws[w := row])
    {
      assert RowFits(c, sandboxes[c], ws);
    }
  }

  /** One workspace row is replaced or inserted without a change of its writer. */
  lemma PutIdle(ws: Workspaces, w: string, row: Workspace, sandboxes: Sandboxes, used: set<string>)
    requires Writers(ws, sandboxes) && Rows(ws, sandboxes, used)
    requires WriterFits(w, row, sandboxes) && (w in ws ==> row.active == ws[w].active)
    ensures Writers(ws[w := row], sandboxes) && Rows(ws[w := row], sandboxes, used)
  {
    forall c | c in sandboxes
      ensures RowFits(c, sandboxes[c], ws[w := row])
    {
      assert RowFits(c, sandboxes[c], ws);
    }
  }

  // ---------------------------------------------------------------- one workspace row changes

  /** `s'` differs from `s` in the row of `w` and in the history kept for `w`. */
  ghost predicate RowChange(s: World, s': World, w: string) {
    && w in s.db.workspaces && w in s'.db.workspaces
    && s' == s.(db := s.db.(workspaces := s.db.workspaces[w := s'.db.workspaces[w]]),
                headGeneration := s'.headGeneration, releasedAt := s'.releasedAt)
    && s'.headGeneration.Keys <= s.headGeneration.Keys + {w}
    && s'.releasedAt.Keys <= s.releasedAt.Keys + {w}
    && (forall v :: v in s.headGeneration && v != w ==>
          v in s'.headGeneration && s'.headGeneration[v] == s.headGeneration[v])
    && (forall v :: v in s.releasedAt && v != w ==>
          v in s'.releasedAt && s'.releasedAt[v] == s.releasedAt[v])
  }

  /** The new row is sound by itself and no dirtier than the old one. */
  ghost predicate RowSound(s: World, s': World, w: string)
    requires RowChange(s, s', w)
  {
    var old', row := s.db.workspaces[w], s'.db.workspaces[w];
    && KindFits(row, w in s.minted)
    && row.active == old'.active && row.generation == old'.generation
    && (row.status == Running <==> old'.status == Running)
    && (IsDirty(row.status) ==> IsDirty(old'.status))
    && IsDurable(w, row, s'.headGeneration)
    && ScheduleFits(w, row, s'.releasedAt, s.grace)
  }

  lemma RowChangeStore(s: World, s': World, w: string)
    requires StoreInv(s) && RowChange(s, s', w) && RowSound(s, s', w)
    ensures StoreInv(s')
  {
    var ws, row := s.db.workspaces, s'.db.workspaces[w];
    assert WriterFits(w, ws[w], s.db.sandboxes);
    PutKinds(ws, w, row, s.minted, s.minted, s.known);
    assert s.known + {w} == s.known;
    PutIdle(ws, w, row, s.db.sandboxes, s.usedSandboxes);
    PutDurable(ws, w, row, s.headGeneration, s'.headGeneration);
    PutScheduled(ws, w, row, s.releasedAt, s'.releasedAt, s.grace);
    PutOperations(ws, w, row, s.db.operations);
  }

  lemma RowChangeInv(s: World, s': World, w: string)
    requires Inv(s) && RowChange(s, s', w) && RowSound(s, s', w)
    requires forall t :: t in s.tasks && HoldsLock(s.tasks[t], w) ==> TaskFits(s', s.tasks[t])
    ensures Inv(s')
  {
    RowChangeStore(s, s', w);
    RecordsElsewhere(s, s', w);
    forall t | t in s.tasks && s.tasks[t].workspaceId == w && !s.tasks[t].Terminating?
      ensures TaskFits(s', s.tasks[t])
    {
      if s.tasks[t].Creating? { assert TaskFits(s, s.tasks[t]); }
    }
    TasksElsewhere(s, s', w);
  }

  /** The status changes that the storage protocol makes. */
  predicate Move(from: WorkspaceStatus, to: WorkspaceStatus) {
    || (from == DetachedDirty && to == Checkpointing)
    || (from == Checkpointing && to == DetachedDirty)
    || (from == DetachedClean && to in {RemoteOnly, Deleting})
    || (from == RemoteOnly && to in {Restoring, Deleting})
    || (from == Restoring && to in {DetachedClean, RemoteOnly})
  }

  /** Only an unlocked workspace, or one whose lock holder merely relies on the head, moves. */
  predicate OnlyReaders(s: World, w: string) {
    forall t :: t in s.tasks && HoldsLock(s.tasks[t], w) ==> s.tasks[t].Preparing? || s.tasks[t].Evicting?
  }

  ghost predicate Transitions(s: World, s': World, w: string, expected: set<WorkspaceStatus>,
                              to: WorkspaceStatus)
  {
    && var r := TransitionTx(s.db, w, expected, to, s.clock);
    && r.Ok? && s' == s.(db := r.value)
    && (forall from :: from in expected ==> Move(from, to))
    && (to == RemoteOnly ==> s.db.workspaces[w].head.Some?)
    && (to == Deleting ==> w !in s.minted)
  }

  lemma TransitionSound(s: World, s': World, w: string, expected: set<WorkspaceStatus>, to: WorkspaceStatus)
    requires StoreInv(s) && Transitions(s, s', w, expected, to)
    ensures RowChange(s, s', w) && RowSound(s, s', w)
  {
    assert Move(s.db.workspaces[w].status, to);
    assert KindFits(s.db.workspaces[w], w in s.minted);
    assert IsDurable(w, s.db.workspaces[w], s.headGeneration);
    assert ScheduleFits(w, s.db.workspaces[w], s.releasedAt, s.grace);
  }

  lemma TransitionInv(s: World, s': World, w: string, expected: set<WorkspaceStatus>, to: WorkspaceStatus)
    requires Inv(s) && OnlyReaders(s, w) && Transitions(s, s', w, expected, to)
    ensures Inv(s')
  {
    TransitionSound(s, s', w, expected, to);
    forall t | t in s.tasks && HoldsLock(s.tasks[t], w)
      ensures TaskFits(s', s.tasks[t])
    {
      assert TaskFits(s, s.tasks[t]);
    }
    RowChangeInv(s, s', w);
  }

  lemma ReleaseInv(s: World, s': World, w: string)
    requires Inv(s) && Release(s, s', w)
    ensures Inv(s')
  {
    assert KindFits(s.db.workspaces[w], w in s.minted);
    assert IsDurable(w, s.db.workspaces[w], s.headGeneration);
    assert RowChange(s, s', w);
    assert RowSound(s, s', w);
    forall t | t in s.tasks && HoldsLock(s.tasks[t], w)
      ensures TaskFits(s', s.tasks[t])
    {
      assert TaskFits(s, s.tasks[t]);
    }
    RowChangeInv(s, s', w);
  }

  // ---------------------------------------------------------------- operation rows

  ghost predicate OperationsChange(s: World, s': World) {
    s' == s.(db := s.db.(operations := s'.db.operations))
  }

  /** Operations are added or move on; keys and owners stay. */
  lemma OperationsChangeInv(s: World, s': World)
    requires Inv(s) && OperationsChange(s, s')
    requires UniqueKeys(s'.db) && OperationsFit(s'.db.workspaces, s'.db.operations)
    requires forall o :: o in s.db.operations ==>
               && o in s'.db.operations && s'.db.operations[o].key == s.db.operations[o].key
               && s'.db.operations[o].workspaceId == s.db.operations[o].workspaceId
    ensures Inv(s')
  {
    forall t | t in s'.tasks
      ensures TaskFits(s', s'.tasks[t])
    {
      assert TaskFits(s, s.tasks[t]);
    }
  }

  lemma UpdateOperationInv(s: World, s': World, o: string, status: OperationStatus, phase: Option<string>,
                           result: Option<string>, error: Option<string>)
    requires Inv(s)
    requires var r := UpdateOperationTx(s.db, o, status, phase, result, error, s.clock);
             r.Ok? && s' == s.(db := r.value)
    requires s.db.operations[o].request.Checkpoint? && status == Succeeded ==>
               var row := s.db.workspaces[s.db.operations[o].workspaceId];
               s.db.operations[o].request.generation == row.generation ==> !IsDirty(row.status)
    ensures Inv(s')
  {
    forall p | p in s'.db.operations
      ensures OperationFits(s'.db.operations[p], s'.db.workspaces)
    {
      assert OperationFits(s.db.operations[p], s.db.workspaces);
    }
    OperationsChangeInv(s, s');
  }

  lemma CreateOperationInv(s: World, s': World, o: string, request: Request, w: string,
                           sandboxId: Option<string>, key: string)
    requires Inv(s)
    requires var r := CreateOperationTx(s.db, o, request, w, sandboxId, key, s.clock);
             r.Ok? && s' == s.(db := r.value)
    requires KeyFits(Operation(request, Pending, None, w, sandboxId, key, None, None, s.clock, s.clock))
    requires request.Checkpoint? ==>
               w in s.db.workspaces && request.generation <= s.db.workspaces[w].generation
    ensures Inv(s')
  {
    if !HasKey(s.db, key) {
      assert UniqueKeys(s'.db);
      OperationsChangeInv(s, s');
    }
  }

  /** Only the checkpoint operation of `w` at `g` is filed under their key. */
  lemma CheckpointKeyOwner(op: Operation, w: string, g: nat)
    requires KeyFits(op) && op.key == CheckpointKey(w, g)
    ensures op.request == Checkpoint(g) && op.workspaceId == w
  {
    assert op.key[0] == 'c';
    if op.request.Checkpoint? {
      CheckpointKeyInjective(w, g, op.workspaceId, op.request.generation);
    } else {
      CheckpointKeyDistinct(w, g, op.workspaceId, if op.request.Restore? then op.request.revision else "");
    }
  }

  // ---------------------------------------------------------------- workspaces are created and deleted

  lemma CreateWorkspaceInv(s: World, s': World, w: string, kind: Kind, volume: string)
    requires Inv(s) && w !in s.db.workspaces
    requires var r := CreateWorkspaceTx(s.db, w, kind, volume, s.clock);
             && r.Ok?
             && s' == s.(db := r.value, known := s.known + {w}, minted := s'.minted)
    requires s'.minted == if kind == Ephemeral then s.minted + {w} else s.minted
    requires kind == Ephemeral ==> w !in s.known
    requires kind == Recoverable ==> w !in s.minted
    ensures Inv(s')
  {
    CreateWorkspaceStore(s, s', w, kind, volume);
    RecordsElsewhere(s, s', w);
    CreateWorkspaceTasks(s, s', w);
  }

  /** No coroutine relies on a workspace that has no row. */
  lemma CreateWorkspaceTasks(s: World, s': World, w: string)
    requires TasksFit(s) && Rows(s.db.workspaces, s.db.sandboxes, s.usedSandboxes) && w !in s.db.workspaces
    requires Elsewhere(s, s', w) && s'.tasks == s.tasks && s'.nextTask == s.nextTask && s'.mode == s.mode
    ensures TasksFit(s')
  {
    forall b | b in s.db.sandboxes
      ensures s.db.sandboxes[b].workspaceId != w
    {
      assert RowFits(b, s.db.sandboxes[b], s.db.workspaces);
    }
    forall t | t in s.tasks && s.tasks[t].workspaceId == w && !s.tasks[t].Terminating?
      ensures TaskFits(s', s.tasks[t])
    {
      assert TaskFits(s, s.tasks[t]);
    }
    TasksElsewhere(s, s', w);
  }

  lemma CreateWorkspaceStore(s: World, s': World, w: string, kind: Kind, volume: string)
    requires StoreInv(s) && w !in s.db.workspaces
    requires var r := CreateWorkspaceTx(s.db, w, kind, volume, s.clock);
             && r.Ok?
             && s' == s.(db := r.value, known := s.known + {w}, minted := s'.minted)
    requires s'.minted == if kind == Ephemeral then s.minted + {w} else s.minted
    requires kind == Recoverable ==> w !in s.minted
    ensures StoreInv(s')
  {
    var ws, row := s.db.workspaces, s'.db.workspaces[w];
    PutKinds(ws, w, row, s.minted, s'.minted, s.known);
    PutIdle(ws, w, row, s.db.sandboxes, s.usedSandboxes);
    PutDurable(ws, w, row, s.headGeneration, s'.headGeneration);
    PutScheduled(ws, w, row, s.releasedAt, s'.releasedAt, s.grace);
    PutOperations(ws, w, row, s.db.operations);
  }

  /** A workspace without a writer has no container to lose. */
  lemma DeleteWorkspaceWorkers(s: World, s': World, w: string)
    requires StoreInv(s) && Workers(s.containers, s.db.sandboxes) && w in s.db.workspaces
    requires var r := DeleteWorkspaceTx(s.db, w); r.Ok? && s' == Forget(s, w).(db := r.value)
    ensures Workers(s'.containers, s'.db.sandboxes)
  {
    forall b | b in s.containers
      ensures IsWriterOf(b, s.containers[b], s'.db.sandboxes)
    {
      assert IsWriterOf(b, s.containers[b], s.db.sandboxes);
      assert RowFits(b, s.db.sandboxes[b], s.db.workspaces);
    }
  }

  lemma DeleteWorkspaceTasks(s: World, s': World, w: string)
    requires Inv(s) && w in s.db.workspaces && s.db.workspaces[w].active.None?
    requires Elsewhere(s, s', w) && s'.tasks == s.tasks && s'.nextTask == s.nextTask && s'.mode == s.mode
    requires forall t :: t in s.tasks && HoldsLock(s.tasks[t], w) ==>
               s.tasks[t].Preparing? && s.tasks[t].head.None?
    ensures TasksFit(s')
  {
    IdleHasNoCreation(s, w);
    forall t | t in s.tasks && s.tasks[t].workspaceId == w && !s.tasks[t].Terminating?
      ensures TaskFits(s', s.tasks[t])
    {
      assert HoldsLock(s.tasks[t], w);
      assert TaskFits(s, s.tasks[t]);
    }
    TasksElsewhere(s, s', w);
  }

  /** Deleting a workspace that nobody writes and whose lock holder, if any, is not affected. */
  lemma DeleteWorkspaceInv(s: World, s': World, w: string)
    requires Inv(s)
    requires var r := DeleteWorkspaceTx(s.db, w); r.Ok? && s' == Forget(s, w).(db := r.value)
    requires forall t :: t in s.tasks && HoldsLock(s.tasks[t], w) ==>
               s.tasks[t].Preparing? && s.tasks[t].head.None?
    ensures Inv(s')
  {
    if w in s.db.workspaces {
      DeleteWorkspaceStore(s, s', w);
      DeleteWorkspaceWorkers(s, s', w);
      RecordsElsewhere(s, s', w);
      DeleteWorkspaceTasks(s, s', w);
    } else {
      assert s' == s;
    }
  }

  lemma DeleteWorkspaceStore(s: World, s': World, w: string)
    requires StoreInv(s) && w in s.db.workspaces
    requires var r := DeleteWorkspaceTx(s.db, w); r.Ok? && s' == Forget(s, w).(db := r.value)
    ensures StoreInv(s')
  {
    DropWriters(s.db.workspaces, w, s.db.sandboxes, s'.db.sandboxes, s.usedSandboxes);
    DropHistory(s.db.workspaces, w, s.headGeneration, s.releasedAt, s.grace);
    DropOperations(s.db.workspaces, w, s.db.operations, s'.db.operations);
  }

  lemma DropWriters(ws: Workspaces, w: string, sandboxes: Sandboxes, sandboxes': Sandboxes, used: set<string>)
    requires Writers(ws, sandboxes) && Rows(ws, sandboxes, used)
    requires sandboxes' == map b | b in sandboxes && sandboxes[b].workspaceId != w :: sandboxes[b]
    ensures Writers(ws - {w}, sandboxes') && Rows(ws - {w}, sandboxes', used)
  {
    forall v | v in ws && v != w
      ensures WriterFits(v, ws[v], sandboxes')
    {
      assert WriterFits(v, ws[v], sandboxes);
    }
    forall b | b in sandboxes'
      ensures RowFits(b, sandboxes'[b], ws - {w})
    {
      assert RowFits(b, sandboxes[b], ws);
    }
  }

  lemma DropHistory(ws: Workspaces, w: string, heads: map<string, nat>, at: map<string, int>, grace: nat)
    requires Durable(ws, heads) && Scheduled(ws, at, grace)
    ensures Durable(ws - {w}, heads - {w}) && Scheduled(ws - {w}, at - {w}, grace)
  {
    forall v | v in ws && v != w
      ensures IsDurable(v, ws[v], heads - {w}) && ScheduleFits(v, ws[v], at - {w}, grace)
    {
      assert IsDurable(v, ws[v], heads) && ScheduleFits(v, ws[v], at, grace);
    }
  }

  lemma DropOperations(ws: Workspaces, w: string, ops: map<string, Operation>, ops': map<string, Operation>)
    requires OperationsFit(ws, ops)
    requires ops' == map o | o in ops && ops[o].workspaceId != w :: ops[o]
    ensures OperationsFit(ws - {w}, ops')
  {
    forall o | o in ops'
      ensures OperationFits(ops'[o], ws - {w})
    {
      assert OperationFits(ops[o], ws);
    }
  }

  // ---------------------------------------------------------------- sandboxes

  /** A workspace row and one of its sandbox rows change; containers and memory stay. */
  ghost predicate BoxChange(s: World, s': World, w: string, b: string) {
    && s.known == s'.known && s.minted == s'.minted && s'.usedSandboxes == s.usedSandboxes + {b}
    && s'.containers == s.containers && s'.records == s.records
    && s'.tasks == s.tasks && s'.nextTask == s.nextTask && s'.mode == s.mode
    && w in s.db.workspaces && w in s'.db.workspaces && b in s'.db.sandboxes
    && s'.db.workspaces == s.db.workspaces[w := s'.db.workspaces[w]]
    && s'.db.sandboxes == s.db.sandboxes[b := s'.db.sandboxes[b]]
    && s'.db.sandboxes[b].workspaceId == w
    && (b in s.db.sandboxes ==> s.db.sandboxes[b].workspaceId == w)
    && (b in s.usedSandboxes ==> b in s.db.sandboxes)
    && s'.db.operations == s.db.operations
  }

  lemma BoxChangeMemory(s: World, s': World, w: string, b: string)
    requires RecordsFit(s) && Workers(s.containers, s.db.sandboxes) && BoxChange(s, s', w, b)
    requires b in s.containers ==> IsLive(s'.db.sandboxes[b].status)
    requires s.mode == Booting && b in s.records ==> s'.db.sandboxes[b].status == Live
    ensures Elsewhere(s, s', w)
    ensures RecordsFit(s') && Workers(s'.containers, s'.db.sandboxes)
  {
    forall c | c in s.containers
      ensures IsWriterOf(c, s.containers[c], s'.db.sandboxes)
    {
      assert IsWriterOf(c, s.containers[c], s.db.sandboxes);
    }
    RecordsElsewhere(s, s', w);
  }

  /** A sandbox id that was never used names nothing. */
  lemma NewSandboxIsUnknown(s: World, b: string)
    requires Inv(s) && b !in s.usedSandboxes
    ensures b !in s.db.sandboxes && b !in s.containers && b !in s.records
  {
  }

  lemma ClaimedWorld(s: World, s1: World, w: string, b: string, host: string, ttl: int)
    requires Inv(s) && s.mode == Serving && Claims(s, s1, w, b, host, ttl)
    ensures Inv(s1) && TaskFits(s1, Creating(b, w, Claimed))
  {
    ClaimStore(s, s1, w, b, host, ttl);
    NewSandboxIsUnknown(s, b);
    BoxChangeMemory(s, s1, w, b);
    ClaimTasks(s, s1, w, b);
  }

  /** A claim is its transaction, then a new coroutine. */
  lemma ClaimSplits(s: World, s': World, w: string, b: string, host: string, ttl: int) returns (s1: World)
    requires Claim(s, s', w, b, host, ttl)
    ensures Claims(s, s1, w, b, host, ttl) && s' == AddTask(s1, Creating(b, w, Claimed))
    ensures s.mode == s1.mode == Serving && s1.tasks == s.tasks && b !in s.usedSandboxes
  {
    s1 := s.(db := s'.db, usedSandboxes := s'.usedSandboxes, releasedAt := s'.releasedAt);
  }

  lemma ClaimInv(s: World, s': World, w: string, b: string, host: string, ttl: int)
    requires Inv(s) && Claim(s, s', w, b, host, ttl)
    ensures Inv(s')
  {
    var s1 := ClaimSplits(s, s', w, b, host, ttl);
    ClaimedWorld(s, s1, w, b, host, ttl);
    ClaimAlone(s, s1, w, b);
    AddTaskInv(s1, Creating(b, w, Claimed));
  }

  lemma ClaimAlone(s: World, s1: World, w: string, b: string)
    requires TasksFit(s) && b !in s.usedSandboxes && s1.tasks == s.tasks
    ensures ApartFromAll(s1, Creating(b, w, Claimed))
  {
    forall u | u in s1.tasks
      ensures Apart(Creating(b, w, Claimed), s1.tasks[u]) && Apart(s1.tasks[u], Creating(b, w, Claimed))
    {
      assert TaskFits(s, s.tasks[u]);
    }
  }

  /** No sandbox is being created for a workspace without a writer. */
  lemma IdleHasNoCreation(s: World, w: string)
    requires Inv(s) && w in s.db.workspaces && s.db.workspaces[w].active.None?
    ensures forall t :: t in s.tasks && s.tasks[t].Creating? ==> s.tasks[t].workspaceId != w
  {
    forall t | t in s.tasks && s.tasks[t].Creating?
      ensures s.tasks[t].workspaceId != w
    {
      assert TaskFits(s, s.tasks[t]);
      var b := s.tasks[t].sandboxId;
      assert RowFits(b, s.db.sandboxes[b], s.db.workspaces);
    }
  }

  /** A claim is refused while a lock holder relies on the status it saw. */
  lemma ClaimTasks(s: World, s1: World, w: string, b: string)
    requires Inv(s) && w in s.db.workspaces && w in s1.db.workspaces && b !in s.usedSandboxes
    requires s.db.workspaces[w].active.None? && s1.db.workspaces[w].head == s.db.workspaces[w].head
    requires s.db.workspaces[w].status !in {Checkpointing, Restoring, Deleting}
    requires Elsewhere(s, s1, w) && s1.tasks == s.tasks && s1.nextTask == s.nextTask && s1.mode == s.mode
    ensures TasksFit(s1)
  {
    IdleHasNoCreation(s, w);
    forall t | t in s.tasks && s.tasks[t].workspaceId == w && !s.tasks[t].Terminating?
      ensures TaskFits(s1, s.tasks[t])
    {
      assert TaskFits(s, s.tasks[t]);
    }
    TasksElsewhere(s, s1, w);
  }

  ghost predicate Claims(s: World, s1: World, w: string, b: string, host: string, ttl: int) {
    && b !in s.usedSandboxes
    && var r := ClaimTx(s.db, w, b, host, host, s.clock, s.clock + ttl);
    && r.Ok?
    && s1 == s.(db := r.value, usedSandboxes := s.usedSandboxes + {b}, releasedAt := s.releasedAt - {w})
  }

  lemma ClaimRow(s: World, s1: World, w: string, b: string, host: string, ttl: int)
    requires StoreInv(s) && Claims(s, s1, w, b, host, ttl)
    ensures w in s.db.workspaces && s.db.workspaces[w].active.None?
    ensures w in s1.db.workspaces && b in s1.db.sandboxes
    ensures s1.db.workspaces == s.db.workspaces[w := s1.db.workspaces[w]]
    ensures s1.db.sandboxes == s.db.sandboxes[b := s1.db.sandboxes[b]]
  {
    assert WriterFits(w, s.db.workspaces[w], s.db.sandboxes);
  }

  /** What the claimed row is like, by itself and next to its sandbox. */
  lemma ClaimedRow(s: World, s1: World, w: string, b: string, host: string, ttl: int)
    requires StoreInv(s) && Claims(s, s1, w, b, host, ttl)
    ensures var ws, row := s.db.workspaces, s1.db.workspaces[w];
            && KindFits(row, w in s.minted) && IsDurable(w, row, s1.headGeneration)
            && ScheduleFits(w, row, s1.releasedAt, s.grace) && NoDirtier(ws[w], row)
            && WriterFits(w, row, s1.db.sandboxes) && RowFits(b, s1.db.sandboxes[b], ws[w := row])
  {
    assert KindFits(s.db.workspaces[w], w in s.minted);
    assert IsDurable(w, s.db.workspaces[w], s.headGeneration);
  }

  lemma ClaimStore(s: World, s1: World, w: string, b: string, host: string, ttl: int)
    requires StoreInv(s) && Claims(s, s1, w, b, host, ttl)
    ensures StoreInv(s1)
    ensures s.db.workspaces[w].active.None?
  {
    ClaimRow(s, s1, w, b, host, ttl);
    ClaimedRow(s, s1, w, b, host, ttl);
    var ws, row := s.db.workspaces, s1.db.workspaces[w];
    PutKinds(ws, w, row, s.minted, s.minted, s.known);
    assert s.known + {w} == s.known;
    PutWriter(ws, w, row, s.db.sandboxes, b, s1.db.sandboxes[b], s.usedSandboxes);
    PutDurable(ws, w, row, s.headGeneration, s1.headGeneration);
    PutScheduled(ws, w, row, s.releasedAt, s1.releasedAt, s.grace);
    PutOperations(ws, w, row, s.db.operations);
  }

  ghost predicate Finishes(s: World, s': World, b: string, w: string, status: SandboxStatus,
                           recoverable: bool)
  {
    && !IsLive(status)
    && var r := FinishTx(s.db, b, status, FinishedStatus(recoverable), s.clock);
    && r.Ok? && s' == s.(db := r.value)
    && w == s.db.sandboxes[b].workspaceId && (recoverable <==> w !in s.minted)
  }

  /** `finish_sandbox` for a sandbox whose Worker is gone and that nobody is creating. */
  lemma FinishInv(s: World, s': World, b: string, w: string, status: SandboxStatus, recoverable: bool)
    requires Inv(s) && Finishes(s, s', b, w, status, recoverable)
    requires b !in s.containers
    requires forall t :: t in s.tasks && s.tasks[t].Creating? ==> s.tasks[t].sandboxId != b
    ensures Inv(s')
  {
    FinishStore(s, s', b, w, status, recoverable);
    assert BoxChange(s, s', w, b);
    BoxChangeMemory(s, s', w, b);
    FinishTasks(s, s', b, w, status, recoverable);
  }

  lemma FinishTasks(s: World, s': World, b: string, w: string, status: SandboxStatus, recoverable: bool)
    requires Inv(s) && Finishes(s, s', b, w, status, recoverable) && Elsewhere(s, s', w)
    requires forall t :: t in s.tasks && s.tasks[t].Creating? ==> s.tasks[t].sandboxId != b
    ensures TasksFit(s')
  {
    assert WriterFits(w, s.db.workspaces[w], s.db.sandboxes);
    forall t | t in s.tasks && s.tasks[t].workspaceId == w && !s.tasks[t].Terminating?
      ensures TaskFits(s', s.tasks[t])
    {
      assert TaskFits(s, s.tasks[t]);
    }
    TasksElsewhere(s, s', w);
  }

  /** What the finished row is like, by itself and next to its sandbox. */
  lemma FinishRow(s: World, s': World, b: string, w: string, status: SandboxStatus, recoverable: bool)
    requires StoreInv(s) && Finishes(s, s', b, w, status, recoverable)
    ensures w in s'.db.workspaces && s'.db.workspaces == s.db.workspaces[w := s'.db.workspaces[w]]
    ensures var ws, row := s.db.workspaces, s'.db.workspaces[w];
            && KindFits(row, w in s.minted) && IsDurable(w, row, s.headGeneration)
            && ScheduleFits(w, row, s.releasedAt, s.grace) && NoDirtier(ws[w], row)
            && WriterFits(w, row, s'.db.sandboxes) && RowFits(b, s'.db.sandboxes[b], ws[w := row])
            && (row.active == ws[w].active || ws[w].active == Some(b))
  {
    var ws := s.db.workspaces;
    assert WriterFits(w, ws[w], s.db.sandboxes) && RowFits(b, s.db.sandboxes[b], ws);
    assert KindFits(ws[w], w in s.minted);
    assert IsDurable(w, ws[w], s.headGeneration) && ScheduleFits(w, ws[w], s.releasedAt, s.grace);
  }

  lemma FinishStore(s: World, s': World, b: string, w: string, status: SandboxStatus, recoverable: bool)
    requires StoreInv(s) && Finishes(s, s', b, w, status, recoverable)
    ensures StoreInv(s')
  {
    var ws, row := s.db.workspaces, s'.db.workspaces[w];
    FinishRow(s, s', b, w, status, recoverable);
    PutKinds(ws, w, row, s.minted, s.minted, s.known);
    assert s.known + {w} == s.known && s.usedSandboxes + {b} == s.usedSandboxes;
    PutWriter(ws, w, row, s.db.sandboxes, b, s'.db.sandboxes[b], s.usedSandboxes);
    PutDurable(ws, w, row, s.headGeneration, s'.headGeneration);
    PutScheduled(ws, w, row, s.releasedAt, s'.releasedAt, s.grace);
    PutOperations(ws, w, row, s.db.operations);
  }

  /** `mark_sandbox_running` moves a starting row; every row that depends on it stays put. */
  lemma MarkRunningTxInv(s: World, s': World, b: string)
    requires Inv(s)
    requires var r := MarkRunningTx(s.db, b, s.clock); r.Ok? && s' == s.(db := r.value)
    requires forall t :: t in s.tasks && s.tasks[t].Creating? ==>
               s.tasks[t].sandboxId == b ==> s.tasks[t].creation in {Marked, Gone}
    ensures Inv(s')
  {
    var w := s.db.sandboxes[b].workspaceId;
    MarkRunningTouches(s, s', b, w);
    MarkRunningStore(s, s', b, w);
    assert s.usedSandboxes + {b} == s.usedSandboxes;
    BoxChangeMemory(s, s', w, b);
    MarkRunningTasks(s, s', b, w);
  }

  lemma MarkRunningTasks(s: World, s': World, b: string, w: string)
    requires TasksFit(s) && Elsewhere(s, s', w) && BoxChange(s, s', w, b) && b in s.db.sandboxes
    requires s'.db.workspaces[w] == s.db.workspaces[w].(updatedAt := s.clock)
    requires s'.db.sandboxes[b].status == Live
    requires forall t :: t in s.tasks && s.tasks[t].Creating? ==>
               s.tasks[t].sandboxId == b ==> s.tasks[t].creation in {Marked, Gone}
    ensures TasksFit(s')
  {
    forall t | t in s.tasks && s.tasks[t].workspaceId == w && !s.tasks[t].Terminating?
      ensures TaskFits(s', s.tasks[t])
    {
      assert TaskFits(s, s.tasks[t]);
    }
    TasksElsewhere(s, s', w);
  }

  /** Exactly the workspace of the sandbox names it as active. */
  lemma MarkRunningTouches(s: World, s': World, b: string, w: string)
    requires StoreInv(s) && b in s.db.sandboxes && s.db.sandboxes[b].status == SandboxStatus.Starting
    requires w == s.db.sandboxes[b].workspaceId
    requires var r := MarkRunningTx(s.db, b, s.clock); r.Ok? && s' == s.(db := r.value)
    ensures w in s.db.workspaces
    ensures s'.db.workspaces == s.db.workspaces[w := s.db.workspaces[w].(updatedAt := s.clock)]
  {
    assert RowFits(b, s.db.sandboxes[b], s.db.workspaces);
    forall v | v in s.db.workspaces && s.db.workspaces[v].active == Some(b)
      ensures v == w
    {
      assert WriterFits(v, s.db.workspaces[v], s.db.sandboxes);
    }
  }

  lemma MarkRunningStore(s: World, s': World, b: string, w: string)
    requires StoreInv(s) && b in s.db.sandboxes && s.db.sandboxes[b].status == SandboxStatus.Starting
    requires w == s.db.sandboxes[b].workspaceId && w in s.db.workspaces
    requires s'.db.workspaces == s.db.workspaces[w := s.db.workspaces[w].(updatedAt := s.clock)]
    requires s' == s.(db := s.db.(workspaces := s'.db.workspaces,
                                  sandboxes := s.db.sandboxes[b := s.db.sandboxes[b].(status := Live)]))
    ensures StoreInv(s')
  {
    var ws, row := s.db.workspaces, s'.db.workspaces[w];
    assert WriterFits(w, ws[w], s.db.sandboxes) && RowFits(b, s.db.sandboxes[b], ws);
    assert KindFits(ws[w], w in s.minted);
    assert IsDurable(w, ws[w], s.headGeneration) && ScheduleFits(w, ws[w], s.releasedAt, s.grace);
    PutKinds(ws, w, row, s.minted, s.minted, s.known);
    assert s.known + {w} == s.known && s.usedSandboxes + {b} == s.usedSandboxes;
    PutWriter(ws, w, row, s.db.sandboxes, b, s'.db.sandboxes[b], s.usedSandboxes);
    PutDurable(ws, w, row, s.headGeneration, s'.headGeneration);
    PutScheduled(ws, w, row, s.releasedAt, s'.releasedAt, s.grace);
    PutOperations(ws, w, row, s.db.operations);
  }

  lemma RenewInv(s: World, s': World, b: string, ttl: int)
    requires Inv(s) && Renew(s, s', b, ttl)
    ensures Inv(s')
  {
    forall w | w in s'.db.workspaces
      ensures WriterFits(w, s'.db.workspaces[w], s'.db.sandboxes)
    {
      assert WriterFits(w, s.db.workspaces[w], s.db.sandboxes);
    }
    forall t | t in s.tasks
      ensures TaskFits(s', s.tasks[t])
    {
      assert TaskFits(s, s.tasks[t]);
    }
  }
}
