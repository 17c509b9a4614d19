/** The inductive invariant of the Manager, and its preservation by every step. */
module ManagerInvariant {
  import opened Prelude
  import opened StateTables
  import opened OperationKeys
  import opened ManagerProtocol

  type Workspaces = map<string, Workspace>
  type Sandboxes = map<string, Sandbox>

  // ---------------------------------------------------------------- the database

  ghost predicate KindFits(row: Workspace, minted: bool) {
    && (row.kind == Ephemeral <==> minted)
    && (minted ==>
          && row.head.None? && row.deleteAfter.None?
          && row.status in {DetachedClean, Running, Deleting})
  }

  /** Ephemeral workspaces are the minted ones, and they never reach the storage protocol. */
  ghost predicate Kinds(ws: Workspaces, minted: set<string>, known: set<string>) {
    && minted <= known && ws.Keys <= known
    && forall w :: w in ws ==> KindFits(ws[w], w in minted)
  }

  ghost predicate IsWriterOf(b: string, w: string, sandboxes: Sandboxes) {
    b in sandboxes && sandboxes[b].workspaceId == w && IsLive(sandboxes[b].status)
  }

  ghost predicate WriterFits(w: string, row: Workspace, sandboxes: Sandboxes) {
    && (row.status == Running <==> row.active.Some?)
    && (row.active.Some? ==> IsWriterOf(row.active.value, w, sandboxes))
  }

  /** A workspace is running exactly while it names a live writer of its own. */
  ghost predicate Writers(ws: Workspaces, sandboxes: Sandboxes) {
    forall w :: w in ws ==> WriterFits(w, ws[w], sandboxes)
  }

  ghost predicate RowFits(b: string, row: Sandbox, ws: Workspaces) {
    row.workspaceId in ws && (IsLive(row.status) ==> ws[row.workspaceId].active == Some(b))
  }

  /** A live sandbox row is the writer of its workspace. */
  ghost predicate Rows(ws: Workspaces, sandboxes: Sandboxes, used: set<string>) {
    sandboxes.Keys <= used && forall b :: b in sandboxes ==> RowFits(b, sandboxes[b], ws)
  }

  ghost predicate HeadIsCurrent(w: string, row: Workspace, heads: map<string, nat>) {
    w in heads && heads[w] == row.generation
  }

  ghost predicate IsDurable(w: string, row: Workspace, heads: map<string, nat>) {
    && (row.head.Some? <==> w in heads)
    && (row.status in {RemoteOnly, Restoring} ==> HeadIsCurrent(w, row, heads))
    && (row.kind == Recoverable && row.status in {DetachedClean, Deleting} ==>
          HeadIsCurrent(w, row, heads) || (row.generation == 0 && row.head.None?))
  }

  /** No uncommitted generation is dropped. */
  ghost predicate Durable(ws: Workspaces, heads: map<string, nat>) {
    heads.Keys <= ws.Keys && forall w :: w in ws ==> IsDurable(w, ws[w], heads)
  }

  ghost predicate ScheduleFits(w: string, row: Workspace, releasedAt: map<string, int>, grace: nat) {
    row.deleteAfter == if w in releasedAt then Some(releasedAt[w] + grace) else None
  }

  /** A retirement is scheduled exactly when the workspace was released after its last claim. */
  ghost predicate Scheduled(ws: Workspaces, releasedAt: map<string, int>, grace: nat) {
    releasedAt.Keys <= ws.Keys && forall w :: w in ws ==> ScheduleFits(w, ws[w], releasedAt, grace)
  }

  predicate IsDirty(status: WorkspaceStatus) {
    status in {Running, DetachedDirty, Checkpointing}
  }

  /** A succeeded checkpoint never carries the generation of a workspace that is dirty. */
  ghost predicate CheckpointFits(g: nat, status: OperationStatus, row: Workspace) {
    && g <= row.generation
    && (status == Succeeded && g == row.generation ==> !IsDirty(row.status))
  }

  ghost predicate OperationFits(op: Operation, ws: Workspaces) {
    && op.workspaceId in ws && KeyFits(op)
    && (op.request.Checkpoint? ==>
          CheckpointFits(op.request.generation, op.status, ws[op.workspaceId]))
  }

  ghost predicate OperationsFit(ws: Workspaces, ops: map<string, Operation>) {
    forall o :: o in ops ==> OperationFits(ops[o], ws)
  }

  ghost predicate StoreInv(s: World) {
    && Kinds(s.db.workspaces, s.minted, s.known)
    && Writers(s.db.workspaces, s.db.sandboxes)
    && Rows(s.db.workspaces, s.db.sandboxes, s.usedSandboxes)
    && Durable(s.db.workspaces, s.headGeneration)
    && Scheduled(s.db.workspaces, s.releasedAt, s.grace)
    && UniqueKeys(s.db)
    && OperationsFit(s.db.workspaces, s.db.operations)
  }

  // ---------------------------------------------------------------- containers and memory

  /** A Worker container belongs to a live row. */
  ghost predicate Workers(containers: map<string, string>, sandboxes: Sandboxes) {
    forall b :: b in containers ==> IsWriterOf(b, containers[b], sandboxes)
  }

  ghost predicate RecordFits(s: World, b: string, w: string, recoverable: bool) {
    && b in s.usedSandboxes && w in s.known && (recoverable <==> w !in s.minted)
    && (b in s.db.sandboxes ==> s.db.sandboxes[b].workspaceId == w)
  }

  ghost predicate AdoptedFits(s: World, b: string) {
    s.mode == Booting ==> b in s.containers && b in s.db.sandboxes && s.db.sandboxes[b].status == Live
  }

  ghost predicate RecordsFit(s: World) {
    forall b :: b in s.records ==>
      RecordFits(s, b, s.records[b].workspaceId, s.records[b].recoverable) && AdoptedFits(s, b)
  }

  ghost predicate CreatingFits(s: World, b: string, w: string, phase: CreatePhase) {
    && b !in s.records && b in s.usedSandboxes && IsWriterOf(b, w, s.db.sandboxes)
    && (phase in {Claimed, Started} ==> s.db.sandboxes[b].status == SandboxStatus.Starting)
    && (phase in {Claimed, Gone} ==> b !in s.containers)
  }

  ghost predicate InStatus(s: World, w: string, status: WorkspaceStatus) {
    w in s.db.workspaces && s.db.workspaces[w].status == status
  }

  ghost predicate HasHead(s: World, w: string) {
    w in s.db.workspaces && s.db.workspaces[w].head.Some?
  }

  ghost predicate SavingFits(s: World, w: string, g: nat, o: string) {
    && InStatus(s, w, Checkpointing) && s.db.workspaces[w].generation == g
    && Holds(s.db, o, CheckpointKey(w, g)) && s.db.operations[o].workspaceId == w
  }

  ghost predicate TaskFits(s: World, task: Task) {
    && task.workspaceId in s.known
    && match task
       case Creating(b, w, phase) => CreatingFits(s, b, w, phase)
       case Terminating(b, w, recoverable, phase) =>
         RecordFits(s, b, w, recoverable) && (phase != Removing ==> b !in s.containers)
       case Saving(w, g, o, _) => SavingFits(s, w, g, o)
       case Preparing(w, head) => head.Some? ==> HasHead(s, w) && s.db.workspaces[w].head == head
       case Fetching(w, revision) => InStatus(s, w, Restoring) && s.db.workspaces[w].head == Some(revision)
       case Evicting(w) => HasHead(s, w)
       case Retiring(w) => InStatus(s, w, Deleting) && w !in s.minted
  }

  /** Two coroutines never share a lock, and a sandbox under creation is not terminated. */
  predicate Apart(a: Task, b: Task) {
    && (HoldsLock(a, a.workspaceId) ==> !HoldsLock(b, a.workspaceId))
    && (a.Creating? && (b.Creating? || b.Terminating?) ==> a.sandboxId != b.sandboxId)
  }

  ghost predicate TasksApart(tasks: map<nat, Task>) {
    forall t, u :: t in tasks && u in tasks && t != u ==> Apart(tasks[t], tasks[u])
  }

  ghost predicate TasksFit(s: World) {
    && (forall t :: t in s.tasks ==> t < s.nextTask && TaskFits(s, s.tasks[t]))
    && TasksApart(s.tasks)
    && (s.mode == Booting ==> s.tasks == map[])
  }

  ghost predicate Inv(s: World) {
    && StoreInv(s) && Workers(s.containers, s.db.sandboxes) && RecordsFit(s) && TasksFit(s)
  }

  lemma InitInv(s: World)
    requires Init(s)
    ensures Inv(s)
  {
  }

  // ---------------------------------------------------------------- frames

  /** What a step on workspace `w` may do to everything else that a coroutine looks at. */
  ghost predicate Elsewhere(s: World, s': World, w: string) {
    && s.known <= s'.known && s.usedSandboxes <= s'.usedSandboxes
    && (forall v :: v in s.known ==> (v in s.minted <==> v in s'.minted))
    && s'.containers.Keys <= s.containers.Keys && s'.records.Keys <= s.records.Keys
    && (forall v :: v in s.db.workspaces && v != w ==>
          v in s'.db.workspaces && s'.db.workspaces[v] == s.db.workspaces[v])
    && (forall b :: b in s'.db.sandboxes && b in s.usedSandboxes ==>
          b in s.db.sandboxes && s'.db.sandboxes[b].workspaceId == s.db.sandboxes[b].workspaceId)
    && (forall b :: b in s.db.sandboxes && s.db.sandboxes[b].workspaceId != w ==>
          b in s'.db.sandboxes && s'.db.sandboxes[b] == s.db.sandboxes[b])
    && (forall o :: o in s.db.operations && s.db.operations[o].workspaceId != w ==>
          && o in s'.db.operations && s'.db.operations[o].key == s.db.operations[o].key
          && s'.db.operations[o].workspaceId == s.db.operations[o].workspaceId)
  }

  lemma TaskElsewhere(s: World, s': World, w: string, task: Task)
    requires TaskFits(s, task) && Elsewhere(s, s', w)
    requires task.workspaceId != w || task.Terminating?
    ensures TaskFits(s', task)
  {
    match task
    case Creating(b, v, phase) => assert b in s'.db.sandboxes;
    case Terminating(b, v, r, phase) =>
    case Saving(v, g, o, f) => assert o in s'.db.operations && v in s'.db.workspaces;
    case Preparing(v, head) => assert head.Some? ==> v in s'.db.workspaces;
    case Fetching(v, revision) => assert v in s'.db.workspaces;
    case Evicting(v) => assert v in s'.db.workspaces;
    case Retiring(v) => assert v in s'.db.workspaces;
  }

  /** Coroutines survive a step on `w` if those at work on `w` do. */
  lemma TasksElsewhere(s: World, s': World, w: string)
    requires TasksFit(s) && Elsewhere(s, s', w)
    requires s'.tasks == s.tasks && s'.nextTask == s.nextTask && s'.mode == s.mode
    requires forall t :: t in s.tasks && s.tasks[t].workspaceId == w && !s.tasks[t].Terminating?
               ==> TaskFits(s', s.tasks[t])
    ensures TasksFit(s')
  {
    forall t | t in s'.tasks
      ensures TaskFits(s', s'.tasks[t])
    {
      if s.tasks[t].workspaceId != w || s.tasks[t].Terminating? {
        TaskElsewhere(s, s', w, s.tasks[t]);
      }
    }
  }

  lemma RecordsElsewhere(s: World, s': World, w: string)
    requires RecordsFit(s) && Elsewhere(s, s', w) && s'.mode == s.mode
    requires forall b :: b in s'.records ==> s'.records[b] == s.records[b] && AdoptedFits(s', b)
    ensures RecordsFit(s')
  {
  }

  // ---------------------------------------------------------------- coroutines start and end

  lemma EndTaskInv(s: World, t: nat)
    requires Inv(s) && t in s.tasks
    ensures Inv(EndTask(s, t))
    ensures forall w :: HoldsLock(s.tasks[t], w) ==> LockFree(EndTask(s, t), w)
  {
    var s' := EndTask(s, t);
    assert forall u :: u in s'.tasks ==> TaskFits(s', s'.tasks[u]) by {
      forall u | u in s'.tasks
        ensures TaskFits(s', s'.tasks[u])
      {
        FitsAlone(s, s', s.tasks[u]);
      }
    }
    assert forall u :: u in s'.tasks ==> Apart(s.tasks[t], s.tasks[u]);
  }

  ghost predicate ApartFromAll(s: World, task: Task) {
    forall u :: u in s.tasks ==> Apart(task, s.tasks[u]) && Apart(s.tasks[u], task)
  }

  /** Whether a coroutine fits does not depend on the others. */
  lemma FitsAlone(s: World, s': World, task: Task)
    requires TaskFits(s, task) && s' == s.(tasks := s'.tasks, nextTask := s'.nextTask)
    ensures TaskFits(s', task)
  {
  }

  lemma SlotApart(tasks: map<nat, Task>, t: nat, task: Task)
    requires TasksApart(tasks) && t !in tasks
    requires forall u :: u in tasks ==> Apart(task, tasks[u]) && Apart(tasks[u], task)
    ensures TasksApart(tasks[t := task])
  {
  }

  /** Putting a fitting coroutine into an unused slot. */
  lemma SlotInv(s: World, s': World, t: nat, task: Task)
    requires Inv(s) && TaskFits(s, task) && s.mode == Serving && ApartFromAll(s, task)
    requires t !in s.tasks && t < s'.nextTask && s.nextTask <= s'.nextTask
    requires s' == s.(tasks := s.tasks[t := task], nextTask := s'.nextTask)
    ensures Inv(s')
  {
    forall u | u in s'.tasks
      ensures TaskFits(s', s'.tasks[u])
    {
      FitsAlone(s, s', s'.tasks[u]);
    }
    SlotApart(s.tasks, t, task);
  }

  lemma AddTaskInv(s: World, task: Task)
    requires Inv(s) && TaskFits(s, task) && s.mode == Serving && ApartFromAll(s, task)
    ensures Inv(AddTask(s, task))
  {
    SlotInv(s, AddTask(s, task), s.nextTask, task);
  }

  lemma AddLockedTaskInv(s: World, task: Task)
    requires Inv(s) && TaskFits(s, task) && s.mode == Serving
    requires HoldsLock(task, task.workspaceId) && LockFree(s, task.workspaceId)
    ensures Inv(AddTask(s, task))
  {
    AddTaskInv(s, task);
  }

  /** The coroutine has moved on without changing its lock or its sandbox. */
  predicate SameHold(before: Task, task: Task) {
    && task.workspaceId == before.workspaceId
    && (HoldsLock(task, task.workspaceId) <==> HoldsLock(before, task.workspaceId))
    && (task.Creating? <==> before.Creating?)
    && (!HoldsLock(task, task.workspaceId) ==> task.sandboxId == before.sandboxId)
  }

  lemma SameHoldApart(before: Task, task: Task, other: Task)
    requires SameHold(before, task) && Apart(before, other) && Apart(other, before)
    ensures Apart(task, other) && Apart(other, task)
  {
  }

  lemma SetTaskInv(s: World, t: nat, task: Task)
    requires Inv(s) && t in s.tasks && TaskFits(s, task) && SameHold(s.tasks[t], task)
    ensures Inv(SetTask(s, t, task))
  {
    var s' := SetTask(s, t, task);
    FitsAlone(s, s', task);
    forall u | u in s.tasks && u != t
      ensures TaskFits(s', s.tasks[u])
      ensures Apart(task, s.tasks[u]) && Apart(s.tasks[u], task)
    {
      FitsAlone(s, s', s.tasks[u]);
      SameHoldApart(s.tasks[t], task, s.tasks[u]);
    }
    assert StoreInv(s');
  }
}
