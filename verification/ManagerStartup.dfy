/**
  Startup after a crash, as the loops that `startup` runs over containers, sandboxes,
  operations and workspaces.  Each iteration is one or two steps of the protocol.
 */
module ManagerStartup {
  import opened Prelude
  import opened StateTables
  import opened StateStores
  import opened ManagerProtocol
  import opened ManagerInvariant
  import opened ManagerTransactions
  import opened ManagerSteps

  // ---------------------------------------------------------------- what startup leaves of a row

  /** A recoverable row keeps its generation and head; only interrupted statuses change. */
  predicate Survives(before: Workspace, after: Workspace) {
    && after.kind == before.kind && after.volume == before.volume
    && after.generation == before.generation && after.head == before.head
    && after.deleteAfter == before.deleteAfter && after.createdAt == before.createdAt
    && (|| (after.status == before.status && after.active == before.active)
        || (before.status in {Running, Checkpointing} && after.status == DetachedDirty && after.active.None?)
        || (before.status == Restoring && after.status == RemoteOnly && after.active.None?))
  }

  const INTERRUPTED := "Manager restarted before the operation result was committed"

  /** An operation is left alone, or it was interrupted and has failed with what it had to show. */
  predicate OperationSurvives(before: Operation, after: Operation) {
    || after == before
    || (&& IsIncomplete(before.status) && after.status == OperationStatus.Failed && after.error == Some(INTERRUPTED)
        && after.result == before.result && after.request == before.request && after.key == before.key
        && after.workspaceId == before.workspaceId
        && (after.phase == before.phase || (before.request.Publish? && after.phase == Some("captured"))))
  }

  /** An interrupted operation has failed, and shows that its capture is there if it is. */
  predicate Interrupted(o: string, before: Operation, captured: set<string>, after: Operation) {
    && after.status == OperationStatus.Failed && after.error == Some(INTERRUPTED) && after.result == before.result
    && after.phase == if before.request.Publish? && o in captured then Some("captured") else before.phase
  }

  /** All interrupted operations but those in `todo` have failed; nothing else has happened. */
  ghost predicate AfterCrash(before: map<string, Operation>, todo: set<string>, captured: set<string>,
                             after: map<string, Operation>) {
    && before.Keys == after.Keys
    && forall o :: o in before ==>
         if IsIncomplete(before[o].status) && o !in todo then Interrupted(o, before[o], captured, after[o])
         else after[o] == before[o]
  }

  lemma AfterCrashStep(before: map<string, Operation>, todo: set<string>, captured: set<string>,
                       after: map<string, Operation>, o: string, failed: Operation)
    requires AfterCrash(before, todo, captured, after) && o in todo && o in before && IsIncomplete(before[o].status)
    requires Interrupted(o, after[o], captured, failed)
    ensures AfterCrash(before, todo - {o}, captured, after[o := failed])
  {
  }

  ghost predicate KeepsOperations(s: World, s': World) {
    forall o :: o in s'.db.operations ==>
      o in s.db.operations && OperationSurvives(s.db.operations[o], s'.db.operations[o])
  }

  ghost predicate Keeps(s: World, s': World) {
    && s'.clock == s.clock && s'.minted == s.minted && KeepsOperations(s, s')
    && forall w :: w in s.db.workspaces && s.db.workspaces[w].kind == Recoverable ==>
         w in s'.db.workspaces && Survives(s.db.workspaces[w], s'.db.workspaces[w])
  }

  lemma KeepsTransitive(s: World, s': World, s'': World)
    requires Keeps(s, s') && Keeps(s', s'')
    ensures Keeps(s, s'')
  {
    forall w | w in s.db.workspaces && s.db.workspaces[w].kind == Recoverable
      ensures w in s''.db.workspaces && Survives(s.db.workspaces[w], s''.db.workspaces[w])
    {
      assert Survives(s.db.workspaces[w], s'.db.workspaces[w]);
    }
    forall o | o in s''.db.operations
      ensures o in s.db.operations && OperationSurvives(s.db.operations[o], s''.db.operations[o])
    {
      assert OperationSurvives(s'.db.operations[o], s''.db.operations[o]);
      assert OperationSurvives(s.db.operations[o], s'.db.operations[o]);
    }
  }

  /** No sandbox becomes live, and live ones keep their expiry. */
  ghost predicate KeepsLeases(s: World, s': World) {
    forall b :: b in ActiveSandboxes(s'.db) ==>
      && b in ActiveSandboxes(s.db)
      && s'.db.sandboxes[b].expiresAt == s.db.sandboxes[b].expiresAt
  }

  lemma LeasesTransitive(s: World, s': World, s'': World)
    requires KeepsLeases(s, s') && KeepsLeases(s', s'')
    ensures KeepsLeases(s, s'')
  {
  }

  /** A Worker that reconciliation keeps: healthy, with an unexpired row. */
  predicate Adoptable(t: Tables, b: string, healthy: set<string>, now: int) {
    b in healthy && b in t.sandboxes && t.sandboxes[b].expiresAt.Some? && t.sandboxes[b].expiresAt.value > now
  }

  function AdoptableWorkers(t: Tables, containers: set<string>, healthy: set<string>, now: int): set<string> {
    set b | b in containers && Adoptable(t, b, healthy, now)
  }

  // ---------------------------------------------------------------- runs grow

  ghost function Current(run: Run): World
    requires run.Valid()
  {
    run.worlds[|run.worlds| - 1]
  }

  ghost function Extend(run: Run, step: Step, s': World): Run {
    Run(run.worlds + [s'], run.steps + [step])
  }

  lemma ExtendValid(run: Run, step: Step, s': World)
    requires run.Valid() && Next(Current(run), step, s')
    ensures Extend(run, step, s').Valid() && Current(Extend(run, step, s')) == s'
  {
    var next := Extend(run, step, s');
    forall i: nat | i < |next.steps|
      ensures next.StepAt(i)
    {
      if i < |run.steps| {
        assert run.StepAt(i);
      }
    }
  }

  // ---------------------------------------------------------------- facts about a reached world

  lemma CurrentInv(run: Run)
    requires run.Valid()
    ensures Inv(Current(run))
  {
    RunInv(run, |run.steps|);
  }

  /** Every Worker is labelled with the workspace of its live row. */
  lemma WorkersAreLive(run: Run)
    requires run.Valid()
    ensures var s := Current(run);
            forall b :: b in s.containers ==>
              b in ActiveSandboxes(s.db) && s.containers[b] == s.db.sandboxes[b].workspaceId
  {
    CurrentInv(run);
    var s := Current(run);
    forall b | b in s.containers
      ensures b in ActiveSandboxes(s.db) && s.containers[b] == s.db.sandboxes[b].workspaceId
    {
      assert IsWriterOf(b, s.containers[b], s.db.sandboxes);
    }
  }

  /** The workspace of a sandbox row exists, and its kind tells whether it was minted. */
  lemma OwnerExists(run: Run, b: string)
    requires run.Valid() && b in Current(run).db.sandboxes
    ensures var s := Current(run);
            var w := s.db.sandboxes[b].workspaceId;
            && w in s.db.workspaces && (s.db.workspaces[w].kind == Recoverable <==> w !in s.minted)
  {
    CurrentInv(run);
    var s := Current(run);
    assert RowFits(b, s.db.sandboxes[b], s.db.workspaces);
    var w := s.db.sandboxes[b].workspaceId;
    assert KindFits(s.db.workspaces[w], w in s.minted);
  }

  lemma EphemeralIsMinted(run: Run, w: string)
    requires run.Valid() && w in Current(run).db.workspaces && Current(run).db.workspaces[w].kind == Ephemeral
    ensures w in Current(run).minted
  {
    CurrentInv(run);
    assert KindFits(Current(run).db.workspaces[w], w in Current(run).minted);
  }

  /** An interrupted workspace has no writer, so its transition goes through. */
  lemma RevertGoesThrough(run: Run, w: string, from: WorkspaceStatus)
    requires run.Valid() && InStatus(Current(run), w, from) && from in {Checkpointing, Restoring}
    ensures Current(run).db.workspaces[w].active.None?
  {
    CurrentInv(run);
    assert WriterFits(w, Current(run).db.workspaces[w], Current(run).db.sandboxes);
  }

  // ---------------------------------------------------------------- effects of single steps

  /** The row of a live sandbox and that of its workspace point at each other. */
  lemma LiveRowFacts(run: Run, b: string)
    requires run.Valid() && b in ActiveSandboxes(Current(run).db)
    ensures var s := Current(run);
            var w := s.db.sandboxes[b].workspaceId;
            && w in s.db.workspaces && s.db.workspaces[w].active == Some(b)
            && s.db.workspaces[w].status == Running
            && (s.db.workspaces[w].kind == Recoverable <==> w !in s.minted)
  {
    CurrentInv(run);
    OwnerExists(run, b);
    var s := Current(run);
    assert RowFits(b, s.db.sandboxes[b], s.db.workspaces);
    var w := s.db.sandboxes[b].workspaceId;
    assert WriterFits(w, s.db.workspaces[w], s.db.sandboxes);
  }

  lemma FinishLostEffect(run: Run, s': World, b: string)
    requires run.Valid() && FinishLost(Current(run), s', b) && b in ActiveSandboxes(Current(run).db)
    ensures var s := Current(run);
            && Keeps(s, s')
            && ActiveSandboxes(s'.db) == ActiveSandboxes(s.db) - {b} && KeepsLeases(s, s')
            && s'.containers == s.containers && s'.records == s.records
    ensures var w := Current(run).db.sandboxes[b].workspaceId;
            w in s'.db.workspaces && s'.db.workspaces[w].active.None?
  {
    LiveRowFacts(run, b);
    var s := Current(run);
    var w := s.db.sandboxes[b].workspaceId;
    assert s'.db.workspaces == s.db.workspaces[w := s'.db.workspaces[w]];
  }

  lemma DeleteEphemeralEffect(run: Run, s': World, w: string)
    requires run.Valid() && DeleteEphemeral(Current(run), s', w)
    ensures var s := Current(run);
            && Keeps(s, s')
            && ActiveSandboxes(s'.db) == ActiveSandboxes(s.db) && KeepsLeases(s, s')
            && s'.containers == s.containers && s'.records == s.records
            && s'.db.workspaces == s.db.workspaces - {w}
  {
    CurrentInv(run);
    var s := Current(run);
    forall c | c in ActiveSandboxes(s.db)
      ensures c in ActiveSandboxes(s'.db)
    {
      assert RowFits(c, s.db.sandboxes[c], s.db.workspaces);
    }
    assert w in s.db.workspaces ==> KindFits(s.db.workspaces[w], w in s.minted);
  }

  /** Marking a live row running keeps it live, with its lease, and touches its workspace only. */
  lemma MarkStartedKeeps(t: Tables, b: string, now: int)
    requires b in ActiveSandboxes(t) && MarkStartedTx(t, b, now).Ok?
    ensures var t' := MarkStartedTx(t, b, now).value;
            && ActiveSandboxes(t') == ActiveSandboxes(t) && t'.sandboxes.Keys == t.sandboxes.Keys
            && (forall c :: c in t.sandboxes ==> t'.sandboxes[c].expiresAt == t.sandboxes[c].expiresAt)
            && (forall w :: w in t.workspaces ==> w in t'.workspaces && Survives(t.workspaces[w], t'.workspaces[w]))
  {
  }

  lemma AdoptEffect(s: World, s': World, b: string)
    requires Adopt(s, s', b)
    ensures Keeps(s, s') && KeepsLeases(s, s')
    ensures ActiveSandboxes(s'.db) == ActiveSandboxes(s.db)
  {
    MarkStartedKeeps(s.db, b, s.clock);
  }

  lemma FailInterruptedEffect(s: World, s': World, o: string, phase: Option<string>, error: string)
    requires FailInterrupted(s, s', o, phase, error) && error == INTERRUPTED
    requires var op := s.db.operations[o];
             phase == op.phase || (op.request.Publish? && phase == Some("captured"))
    ensures Keeps(s, s')
    ensures IncompleteOperations(s'.db) == IncompleteOperations(s.db) - {o}
    ensures s'.db.workspaces == s.db.workspaces
  {
  }

  lemma RevertInterruptedEffect(s: World, s': World, w: string, from: WorkspaceStatus)
    requires RevertInterrupted(s, s', w, from)
    ensures Keeps(s, s')
    ensures WithStatus(s'.db, from) == WithStatus(s.db, from) - {w}
    ensures from == Restoring ==> WithStatus(s'.db, Checkpointing) == WithStatus(s.db, Checkpointing)
    ensures IncompleteOperations(s'.db) == IncompleteOperations(s.db)
    ensures ActiveSandboxes(s'.db) == ActiveSandboxes(s.db)
    ensures Orphans(s'.db) == Orphans(s.db)
  {
  }

  // ---------------------------------------------------------------- the loops

  /** Containers are unseen or recorded; live rows are recorded or still without a record. */
  predicate Partition(containers: set<string>, records: set<string>, active: set<string>,
                      todo: set<string>, lost: set<string>)
  {
    && containers == todo + records && todo !! records
    && active == records + lost && lost !! records
  }

  lemma PartitionStep(c: set<string>, r: set<string>, a: set<string>, c': set<string>, r': set<string>,
                      a': set<string>, todo: set<string>, lost: set<string>, b: string)
    requires Partition(c, r, a, todo, lost) && b in todo
    requires || (c' == c && r' == r + {b} && a' == a && b in a)
             || (c' == c - {b} && r' == r && a' == a - {b})
    ensures Partition(c', r', a', todo - {b}, lost - {b})
  {
  }

  /** A Worker still to be looked at has no record; a live row still missing has no Worker either. */
  lemma PartitionMembers(c: set<string>, r: set<string>, a: set<string>, todo: set<string>, lost: set<string>,
                         b: string)
    requires Partition(c, r, a, todo, lost)
    ensures b in todo ==> b in c && b !in r
    ensures b in lost && todo == {} ==> b in a && b !in r && b !in c
  {
  }

  lemma PartitionFinish(c: set<string>, r: set<string>, a: set<string>, lost: set<string>, b: string)
    requires Partition(c, r, a, {}, lost) && b in lost
    ensures Partition(c, r, a - {b}, {}, lost - {b})
  {
  }

  /** Every Worker is one to adopt, or can be removed. */
  ghost predicate AllManageable(s0: World, healthy: set<string>, stuck: set<string>, now: int) {
    forall b :: b in s0.containers ==> Adoptable(s0.db, b, healthy, now) || b !in stuck
  }

  lemma DecideStep(s0: World, todo: set<string>, b: string, r: set<string>, r': set<string>,
                   healthy: set<string>, now: int)
    requires b in todo && todo <= s0.containers.Keys
    requires r == AdoptableWorkers(s0.db, s0.containers.Keys - todo, healthy, now)
    requires r' == if Adoptable(s0.db, b, healthy, now) then r + {b} else r
    ensures r' == AdoptableWorkers(s0.db, s0.containers.Keys - (todo - {b}), healthy, now)
  {
  }

  /** Ephemeral workspaces that nobody uses: their creator crashed before the claim. */
  function Orphans(t: Tables): set<string> {
    set w | w in WithStatus(t, DetachedClean) && t.workspaces[w].kind == Ephemeral && t.workspaces[w].active.None?
  }

  class Manager {
    const store: StateStore
    var containers: map<string, string>
    var records: map<string, Record>
    ghost var run: Run

    /** The object shows the last world of a run, in which the Manager is starting up. */
    ghost predicate Valid()
      reads this`run, this`records, this`containers, store
    {
      && run.Valid()
      && var s := Current(run);
      && s.mode == Booting && s.db == store.State()
      && s.containers == containers && s.records == records
    }

    /** The Manager process starts over what the crash left. */
    constructor (store: StateStore, containers: map<string, string>, ghost run: Run)
      requires run.Valid() && Current(run).mode == Booting && Current(run).records == map[]
      requires Current(run).db == store.State() && Current(run).containers == containers
      ensures Valid() && this.store == store && this.containers == containers && this.run == run
      ensures records == map[]
    {
      this.store := store;
      this.containers := containers;
      this.records := map[];
      this.run := run;
    }

    ghost method Advance(step: Step, s': World)
      requires run.Valid() && Next(Current(run), step, s')
      modifies this`run
      ensures run == Extend(old(run), step, s') && run.Valid() && Current(run) == s'
      ensures old(run).worlds <= run.worlds
    {
      ExtendValid(run, step, s');
      run := Extend(run, step, s');
    }

    ghost method AdvanceStartup(step: Step, s': World)
      requires run.Valid() && StartupNext(Current(run), step, s')
      modifies this`run
      ensures run == Extend(old(run), step, s') && run.Valid() && Current(run) == s'
      ensures old(run).worlds <= run.worlds
    {
      Advance(step, s');
    }

    /** The sandbox row is finished as failed; the workspace becomes dirty or deleting. */
    method FinishRow(b: string, id: string, now: int) returns (recoverable: bool)
      requires Valid() && now == Current(run).clock
      requires b in store.sandboxes && b !in containers && b !in records
      requires id == store.sandboxes[b].workspaceId
      modifies this`run, store
      ensures Valid() && old(run).worlds <= run.worlds
      ensures FinishLost(old(Current(run)), Current(run), b)
      ensures recoverable <==> id !in Current(run).minted
    {
      ghost var s := Current(run);
      OwnerExists(run, b);
      var found := store.GetWorkspace(id);
      recoverable := found.value.kind == Recoverable;
      var finished := store.FinishSandbox(b, SandboxStatus.Failed, FinishedStatus(recoverable), now);
      AdvanceStartup(DoFinishLost(b), s.(db := store.State()));
    }

    method DeleteRow(id: string)
      requires Valid() && id in Current(run).minted
      requires id in store.workspaces ==> store.workspaces[id].active.None?
      modifies this`run, store
      ensures Valid() && old(run).worlds <= run.worlds
      ensures DeleteEphemeral(old(Current(run)), Current(run), id)
    {
      ghost var s := Current(run);
      var deleted := store.DeleteWorkspace(id);
      Advance(DoDeleteEphemeral(id), Forget(s, id).(db := store.State()));
    }

    /** `_finish_reconciled_sandbox`. */
    method FinishReconciled(b: string, now: int)
      requires Valid() && now == Current(run).clock
      requires b in ActiveSandboxes(store.State()) && b !in containers && b !in records
      modifies this`run, store
      ensures Valid() && old(run).worlds <= run.worlds
      ensures Keeps(old(Current(run)), Current(run)) && KeepsLeases(old(Current(run)), Current(run))
      ensures ActiveSandboxes(store.State()) == old(ActiveSandboxes(store.State())) - {b}
    {
      ghost var run0 := run;
      var id := store.sandboxes[b].workspaceId;
      var recoverable := FinishRow(b, id, now);
      ghost var run1 := run;
      FinishLostEffect(run0, Current(run1), b);
      if !recoverable {
        DeleteRow(id);
        DeleteEphemeralEffect(run1, Current(run), id);
        KeepsTransitive(Current(run0), Current(run1), Current(run));
        LeasesTransitive(Current(run0), Current(run1), Current(run));
      }
    }

    // -------------------------------------------------------------- containers

    /** A row whose creation was interrupted is marked running. */
    method MarkStarted(b: string, now: int)
      requires b in ActiveSandboxes(store.State())
      modifies store
      ensures var r := MarkStartedTx(old(store.State()), b, now);
              r.Ok? && store.State() == r.value
    {
      if store.sandboxes[b].status == SandboxStatus.Starting {
        var marked := store.MarkSandboxRunning(b, now);
      }
    }

    /** A healthy, unexpired Worker of a live row becomes a record. */
    method AdoptWorker(b: string, now: int)
      requires Valid() && now == Current(run).clock
      requires b in containers && b in ActiveSandboxes(store.State())
      requires store.sandboxes[b].expiresAt.Some? && store.sandboxes[b].expiresAt.value > now
      modifies this`run, this`records, store
      ensures Valid() && old(run).worlds <= run.worlds
      ensures Adopt(old(Current(run)), Current(run), b)
    {
      ghost var s := Current(run);
      WorkersAreLive(run);
      OwnerExists(run, b);
      var id := store.sandboxes[b].workspaceId;
      var found := store.GetWorkspace(id);
      MarkStarted(b, now);
      records := records[b := Record(id, found.value.kind == Recoverable)];
      ghost var s' := s.(db := store.State(), records := records);
      assert Adopt(s, s', b);
      AdvanceStartup(DoAdopt(b), s');
    }

    method RemoveWorker(b: string)
      requires Valid() && b !in records
      modifies this`run, this`containers
      ensures Valid() && old(run).worlds <= run.worlds
      ensures Discard(old(Current(run)), Current(run), b)
    {
      ghost var s := Current(run);
      containers := containers - {b};
      AdvanceStartup(DoDiscard(b), s.(containers := containers));
    }

    /** One Worker is adopted, or removed together with its row; `stuck` Workers resist removal. */
    method ReconcileWorker(b: string, healthy: set<string>, stuck: set<string>, now: int) returns (ok: bool)
      requires Valid() && now == Current(run).clock && b in containers && b !in records
      modifies this`run, this`records, this`containers, store
      ensures Valid() && old(run).worlds <= run.worlds
      ensures Keeps(old(Current(run)), Current(run)) && KeepsLeases(old(Current(run)), Current(run))
      ensures ok <==> old(Adoptable(store.State(), b, healthy, now)) || b !in stuck
      ensures ok ==>
                if old(Adoptable(store.State(), b, healthy, now)) then
                  && containers == old(containers) && records.Keys == old(records.Keys) + {b}
                  && ActiveSandboxes(store.State()) == old(ActiveSandboxes(store.State()))
                  && b in ActiveSandboxes(store.State())
                else
                  && containers == old(containers) - {b} && records == old(records)
                  && ActiveSandboxes(store.State()) == old(ActiveSandboxes(store.State())) - {b}
    {
      ghost var run0 := run;
      WorkersAreLive(run);
      var row := store.sandboxes[b];
      if row.expiresAt.Some? && row.expiresAt.value > now && b in healthy {
        AdoptWorker(b, now);
        AdoptEffect(Current(run0), Current(run), b);
      } else {
        if b in stuck {
          return false;
        }
        RejectWorker(b, now);
      }
      return true;
    }

    method RejectWorker(b: string, now: int)
      requires Valid() && now == Current(run).clock && b !in records
      requires b in ActiveSandboxes(store.State())
      modifies this`run, this`containers, store
      ensures Valid() && old(run).worlds <= run.worlds
      ensures Keeps(old(Current(run)), Current(run)) && KeepsLeases(old(Current(run)), Current(run))
      ensures containers == old(containers) - {b}
      ensures ActiveSandboxes(store.State()) == old(ActiveSandboxes(store.State())) - {b}
    {
      ghost var s := Current(run);
      RemoveWorker(b);
      ghost var s1 := Current(run);
      assert Keeps(s, s1);
      FinishReconciled(b, now);
      KeepsTransitive(s, s1, Current(run));
      LeasesTransitive(s, s1, Current(run));
    }

    /** Between two containers: what is left to look at, what has a record, what is still live. */
    ghost predicate Reconciling(s0: World, todo: set<string>, lost: set<string>)
      reads this`run, this`records, this`containers, store
    {
      && Valid() && Keeps(s0, Current(run))
      && Partition(containers.Keys, records.Keys, ActiveSandboxes(store.State()), todo, lost)
    }

    /** What has been decided about the Workers that are no longer in `todo`. */
    ghost predicate Decided(s0: World, todo: set<string>, healthy: set<string>, stuck: set<string>, now: int)
      requires Valid()
      reads this`run, this`records, this`containers, store
    {
      && KeepsLeases(s0, Current(run)) && todo <= s0.containers.Keys
      && records.Keys == AdoptableWorkers(s0.db, s0.containers.Keys - todo, healthy, now)
      && (forall b :: b in s0.containers.Keys - todo ==> Adoptable(s0.db, b, healthy, now) || b !in stuck)
    }

    /** The next Worker of the list. */
    method ReconcileNext(ghost s0: World, ghost todo: set<string>, ghost lost: set<string>, b: string,
                         healthy: set<string>, stuck: set<string>, now: int) returns (ok: bool)
      requires Reconciling(s0, todo, lost) && Decided(s0, todo, healthy, stuck, now)
      requires b in todo && now == Current(run).clock
      modifies this`run, this`records, this`containers, store
      ensures Valid() && old(run).worlds <= run.worlds && Keeps(s0, Current(run))
      ensures Current(run).clock == now
      ensures ok <==> Adoptable(s0.db, b, healthy, now) || b !in stuck
      ensures ok ==> Reconciling(s0, todo - {b}, lost - {b})
      ensures ok ==> Decided(s0, todo - {b}, healthy, stuck, now)
    {
      ghost var s := Current(run);
      ghost var c, r, a := containers.Keys, records.Keys, ActiveSandboxes(store.State());
      WorkersAreLive(run);
      PartitionMembers(c, r, a, todo, lost, b);
      assert Adoptable(s.db, b, healthy, now) == Adoptable(s0.db, b, healthy, now);
      ok := ReconcileWorker(b, healthy, stuck, now);
      KeepsTransitive(s0, s, Current(run));
      if ok {
        LeasesTransitive(s0, s, Current(run));
        PartitionStep(c, r, a, containers.Keys, records.Keys, ActiveSandboxes(store.State()), todo, lost, b);
        DecideStep(s0, todo, b, r, records.Keys, healthy, now);
      }
    }

    /**
      The containers in whatever order Docker lists them: each operation container of `helpers` is
      removed, each Worker adopted or removed.  The first that cannot be removed ends the loop;
      `left` are the operation containers that then remain.
     */
    method ReconcileAll(ghost s0: World, helpers: set<string>, healthy: set<string>, stuck: set<string>,
                        jammed: set<string>, now: int) returns (ok: bool, left: set<string>)
      requires Reconciling(s0, containers.Keys, ActiveSandboxes(store.State()))
      requires Decided(s0, containers.Keys, healthy, stuck, now) && now == Current(run).clock
      modifies this`run, this`records, this`containers, store
      ensures Valid() && old(run).worlds <= run.worlds && Keeps(s0, Current(run)) && Current(run).clock == now
      ensures left <= helpers && helpers - left !! jammed && (ok ==> left == {})
      ensures ok ==> Reconciling(s0, {}, ActiveSandboxes(store.State()) - records.Keys)
      ensures ok ==> Decided(s0, {}, healthy, stuck, now)
      ensures !ok ==> !(helpers !! jammed) || !AllManageable(s0, healthy, stuck, now)
    {
      var todo := containers.Keys;
      ghost var lost := ActiveSandboxes(store.State());
      left := helpers;
      while todo != {} || left != {}
        invariant Reconciling(s0, todo, lost) && old(run).worlds <= run.worlds
        invariant Decided(s0, todo, healthy, stuck, now)
        invariant left <= helpers && helpers - left !! jammed
        decreases todo, left
      {
        if
        case todo != {} =>
          var b :| b in todo;
          ok := ReconcileNext(s0, todo, lost, b, healthy, stuck, now);
          if !ok {
            return;
          }
          todo, lost := todo - {b}, lost - {b};
        case left != {} =>
          var h :| h in left;
          if h in jammed {
            return false, left;
          }
          left := left - {h};
      }
      ok := true;
    }

    /**
      `_reconcile_managed_containers`: no operation container is left, every Worker is adopted or
      removed, and every live row without a Worker is finished.  `healthy` are the Workers Docker
      reports as healthy; `stuck` Workers and `jammed` operation containers are those it fails to
      remove, and one of these aborts the startup.
     */
    method Reconcile(helpers: set<string>, healthy: set<string>, stuck: set<string>, jammed: set<string>,
                     now: int) returns (ok: bool, left: set<string>)
      requires Valid() && now == Current(run).clock && records == map[]
      modifies this`run, this`records, this`containers, store
      ensures Valid() && old(run).worlds <= run.worlds
      ensures Keeps(old(Current(run)), Current(run))
      ensures ok <==> helpers !! jammed
                      && forall b :: b in old(containers) ==>
                           old(Adoptable(store.State(), b, healthy, now)) || b !in stuck
      ensures left <= helpers && helpers - left !! jammed && (ok ==> left == {})
      ensures ok ==> records.Keys == ActiveSandboxes(store.State()) == containers.Keys
      ensures ok ==> records.Keys == old(AdoptableWorkers(store.State(), containers.Keys, healthy, now))
    {
      ghost var s0 := Current(run);
      ok, left := ReconcileAll(s0, helpers, healthy, stuck, jammed, now);
      if ok {
        assert s0.containers.Keys - {} == s0.containers.Keys;
        FinishMissing(s0, now);
      }
    }

    /** Live rows that no container accounted for. */
    method FinishMissing(ghost s0: World, now: int)
      requires Reconciling(s0, {}, ActiveSandboxes(store.State()) - records.Keys)
      requires now == Current(run).clock
      modifies this`run, store
      ensures Valid() && old(run).worlds <= run.worlds
      ensures Keeps(s0, Current(run))
      ensures records.Keys == ActiveSandboxes(store.State()) == containers.Keys
    {
      var missing := ActiveSandboxes(store.State()) - records.Keys;
      while missing != {}
        invariant Reconciling(s0, {}, missing) && old(run).worlds <= run.worlds
      {
        var b :| b in missing;
        ghost var s := Current(run);
        ghost var c, r, a := containers.Keys, records.Keys, ActiveSandboxes(store.State());
        PartitionMembers(c, r, a, {}, missing, b);
        FinishReconciled(b, now);
        KeepsTransitive(s0, s, Current(run));
        PartitionFinish(c, r, a, missing, b);
        missing := missing - {b};
      }
    }

    /** `_cleanup_orphaned_ephemeral_workspaces`. */
    method DeleteOrphans()
      requires Valid() && records.Keys == ActiveSandboxes(store.State())
      modifies this`run, store
      ensures Valid() && old(run).worlds <= run.worlds
      ensures Keeps(old(Current(run)), Current(run))
      ensures records.Keys == ActiveSandboxes(store.State())
      ensures Orphans(store.State()) == {}
    {
      ghost var s0 := Current(run);
      var todo := WithStatus(store.State(), DetachedClean);
      while todo != {}
        invariant Valid() && old(run).worlds <= run.worlds
        invariant Keeps(s0, Current(run)) && records.Keys == ActiveSandboxes(store.State())
        invariant Orphans(store.State()) <= todo
      {
        var w :| w in todo;
        todo := todo - {w};
        ghost var run1 := run;
        if w in store.workspaces && store.workspaces[w].kind == Ephemeral && store.workspaces[w].active.None? {
          EphemeralIsMinted(run, w);
          DeleteRow(w);
          DeleteEphemeralEffect(run1, Current(run), w);
          KeepsTransitive(s0, Current(run1), Current(run));
        }
      }
    }

    // -------------------------------------------------------------- interrupted work

    /** An interrupted operation fails; a publish that has its capture keeps that phase. */
    method FailOperation(o: string, captured: set<string>, now: int)
      requires Valid() && now == Current(run).clock && o in IncompleteOperations(store.State())
      modifies this`run, store
      ensures Valid() && old(run).worlds <= run.worlds
      ensures Keeps(old(Current(run)), Current(run))
      ensures IncompleteOperations(store.State()) == old(IncompleteOperations(store.State())) - {o}
      ensures store.workspaces == old(store.workspaces)
      ensures ActiveSandboxes(store.State()) == old(ActiveSandboxes(store.State()))
      ensures o in store.operations && Interrupted(o, old(store.operations[o]), captured, store.operations[o])
      ensures store.operations == old(store.operations)[o := store.operations[o]]
    {
      ghost var s := Current(run);
      var op := store.operations[o];
      var phase := if op.request.Publish? && o in captured then Some("captured") else op.phase;
      var updated := store.UpdateOperation(o, OperationStatus.Failed, phase, op.result, Some(INTERRUPTED), now);
      ghost var s' := s.(db := store.State());
      assert FailInterrupted(s, s', o, phase, INTERRUPTED);
      AdvanceStartup(DoFailInterrupted(o, phase, INTERRUPTED), s');
      FailInterruptedEffect(s, s', o, phase, INTERRUPTED);
    }

    method FailOperations(captured: set<string>, now: int)
      requires Valid() && now == Current(run).clock
      modifies this`run, store
      ensures Valid() && old(run).worlds <= run.worlds
      ensures Keeps(old(Current(run)), Current(run))
      ensures IncompleteOperations(store.State()) == {}
      ensures store.workspaces == old(store.workspaces)
      ensures ActiveSandboxes(store.State()) == old(ActiveSandboxes(store.State()))
      ensures AfterCrash(old(store.operations), {}, captured, store.operations)
    {
      ghost var s0 := Current(run);
      var todo := IncompleteOperations(store.State());
      while todo != {}
        invariant Valid() && old(run).worlds <= run.worlds
        invariant Keeps(s0, Current(run)) && IncompleteOperations(store.State()) == todo
        invariant ActiveSandboxes(store.State()) == ActiveSandboxes(s0.db)
        invariant store.workspaces == s0.db.workspaces
        invariant AfterCrash(s0.db.operations, todo, captured, store.operations)
      {
        var o :| o in todo;
        ghost var s := Current(run);
        FailOperation(o, captured, now);
        AfterCrashStep(s0.db.operations, todo, captured, s.db.operations, o, store.operations[o]);
        KeepsTransitive(s0, s, Current(run));
        todo := todo - {o};
      }
    }

    method RevertOne(w: string, from: WorkspaceStatus, now: int)
      requires Valid() && now == Current(run).clock && from in {Checkpointing, Restoring}
      requires w in WithStatus(store.State(), from)
      modifies this`run, store
      ensures Valid() && old(run).worlds <= run.worlds
      ensures RevertInterrupted(old(Current(run)), Current(run), w, from)
    {
      ghost var s := Current(run);
      RevertGoesThrough(run, w, from);
      var to := if from == Checkpointing then DetachedDirty else RemoteOnly;
      var moved := store.TransitionWorkspace(w, {from}, to, now);
      ghost var s' := s.(db := store.State());
      assert RevertInterrupted(s, s', w, from);
      AdvanceStartup(DoRevertInterrupted(w, from), s');
    }

    /** Interrupted checkpoints become dirty again, interrupted restores remote-only. */
    method RevertAll(from: WorkspaceStatus, now: int)
      requires Valid() && now == Current(run).clock
      requires from in {Checkpointing, Restoring}
      modifies this`run, store
      ensures Valid() && old(run).worlds <= run.worlds
      ensures Keeps(old(Current(run)), Current(run))
      ensures WithStatus(store.State(), from) == {}
      ensures from == Restoring ==>
                WithStatus(store.State(), Checkpointing) == old(WithStatus(store.State(), Checkpointing))
      ensures IncompleteOperations(store.State()) == old(IncompleteOperations(store.State()))
      ensures ActiveSandboxes(store.State()) == old(ActiveSandboxes(store.State()))
      ensures Orphans(store.State()) == old(Orphans(store.State()))
    {
      ghost var s0 := Current(run);
      var todo := WithStatus(store.State(), from);
      while todo != {}
        invariant Valid() && old(run).worlds <= run.worlds
        invariant Keeps(s0, Current(run)) && WithStatus(store.State(), from) == todo
        invariant from == Restoring ==> WithStatus(store.State(), Checkpointing) == WithStatus(s0.db, Checkpointing)
        invariant IncompleteOperations(store.State()) == IncompleteOperations(s0.db)
        invariant ActiveSandboxes(store.State()) == ActiveSandboxes(s0.db)
        invariant Orphans(store.State()) == Orphans(s0.db)
      {
        var w :| w in todo;
        ghost var s := Current(run);
        RevertOne(w, from, now);
        RevertInterruptedEffect(s, Current(run), w, from);
        KeepsTransitive(s0, s, Current(run));
        todo := todo - {w};
      }
    }

    /**
      Crash recovery.  From whatever world a run has reached, startup aborts exactly when there is
      an operation container that it cannot remove, or a Worker that it neither adopts nor can
      remove.  Otherwise it ends with nothing interrupted, no storage helper and no orphan left,
      with records for exactly the live sandbox rows, which are those of the healthy and unexpired
      Workers, and with every recoverable workspace's head and generation untouched.
     */
    method Startup(helpers: set<string>, healthy: set<string>, stuck: set<string>, jammed: set<string>,
                   captured: set<string>, now: int) returns (ok: bool, left: set<string>)
      requires Valid() && now == Current(run).clock && records == map[]
      modifies this`run, this`records, this`containers, store
      ensures Valid() && old(run).worlds <= run.worlds
      ensures Keeps(old(Current(run)), Current(run))
      ensures ok <==> helpers !! jammed
                      && forall b :: b in old(containers) ==>
                           old(Adoptable(store.State(), b, healthy, now)) || b !in stuck
      ensures ok ==> left == {} && Orphans(store.State()) == {}
      ensures ok ==> Recovered(Current(run))
      ensures ok ==> records.Keys == old(AdoptableWorkers(store.State(), containers.Keys, healthy, now))
    {
      ghost var s0 := Current(run);
      ok, left := Reconcile(helpers, healthy, stuck, jammed, now);
      if !ok {
        return;
      }
      ghost var s1 := Current(run);
      DeleteOrphans();
      ghost var s2 := Current(run);
      KeepsTransitive(s0, s1, s2);
      FailOperations(captured, now);
      ghost var s3 := Current(run);
      KeepsTransitive(s0, s2, s3);
      RevertAll(Checkpointing, now);
      ghost var s4 := Current(run);
      KeepsTransitive(s0, s3, s4);
      RevertAll(Restoring, now);
      KeepsTransitive(s0, s4, Current(run));
    }
  }

  /** What `Keeps` and `Recovered` say together about one recoverable workspace. */
  lemma RecoveredWorkspace(s: World, s': World, w: string)
    requires Inv(s) && Inv(s') && Keeps(s, s') && Recovered(s')
    requires w in s.db.workspaces && s.db.workspaces[w].kind == Recoverable
    ensures w in s'.db.workspaces
    ensures var before, after := s.db.workspaces[w], s'.db.workspaces[w];
            && after.generation == before.generation && after.head == before.head
            && (before.status == Checkpointing ==> after.status == DetachedDirty)
            && (before.status == Restoring ==> after.status == RemoteOnly)
            && (before.status !in {Running, Checkpointing, Restoring} ==> after.status == before.status)
            && (before.status == Running ==>
                  || after.status == DetachedDirty
                  || (after.status == Running && after.active == before.active && after.active.Some?
                      && after.active.value in s'.records))
  {
    var before, after := s.db.workspaces[w], s'.db.workspaces[w];
    assert Survives(before, after);
    assert after.status != Checkpointing by {
      assert w !in WithStatus(s'.db, Checkpointing);
    }
    assert after.status != Restoring by {
      assert w !in WithStatus(s'.db, Restoring);
    }
    assert WriterFits(w, after, s'.db.sandboxes) && WriterFits(w, before, s.db.sandboxes);
    if after.active.Some? {
      assert after.active.value in ActiveSandboxes(s'.db);
    }
  }
}
