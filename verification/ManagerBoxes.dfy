/**
  The life of a sandbox row as one table, the expiry that each live sandbox has been granted, and
  who looks after it.
 */
module ManagerBoxes {
  import opened Prelude
  import opened StateTables
  import opened ManagerProtocol
  import opened ManagerInvariant
  import opened ManagerSteps
  import opened ManagerStatus

  // ---------------------------------------------------------------- the table

  /** What a step makes of a sandbox row. */
  function BoxAfter(s: World, step: Step, b: string): Sandbox
    requires b in s.db.sandboxes
  {
    var row := s.db.sandboxes[b];
    if (step.DoMarkRunning? && IsOf(s, step.t, b)) || step == DoAdopt(b) then row.(status := Live)
    else if step.DoRenew? && step.sandboxId == b then row.(expiresAt := Some(s.clock + step.ttl))
    else if Ended(s, step) == Some(b) then
      row.(status := if step.DoTerminateFinish? then Terminated else SandboxStatus.Failed, expiresAt := None)
    else row
  }

  /** Rows come by claims, with a lease, and go with their workspace. */
  predicate BoxExists(s: World, step: Step, s': World, b: string) {
    && (b in s'.db.sandboxes && b !in s.db.sandboxes ==>
          && step.DoClaim? && step.sandboxId == b
          && s'.db.sandboxes[b] ==
             Sandbox(step.w, step.host, step.host, SandboxStatus.Starting, s.clock, Some(s.clock + step.ttl)))
    && (b in s.db.sandboxes && b !in s'.db.sandboxes ==>
          || step == DoDeleteEphemeral(s.db.sandboxes[b].workspaceId)
          || (step.DoRetireDelete? && step.t in s.tasks && s.tasks[step.t] == Retiring(s.db.sandboxes[b].workspaceId)))
  }

  predicate BoxStep(s: World, step: Step, s': World, b: string) {
    && BoxExists(s, step, s', b)
    && (b in s.db.sandboxes && b in s'.db.sandboxes ==> s'.db.sandboxes[b] == BoxAfter(s, step, b))
    && (step.DoClaim? && step.sandboxId == b ==> b !in s.db.sandboxes && b in s'.db.sandboxes)
    && (step.DoRenew? && step.sandboxId == b ==> b in s.db.sandboxes && s.db.sandboxes[b].status == Live)
    && ((step.DoMarkRunning? && IsOf(s, step.t, b)) || step == DoAdopt(b) ==>
          b in s.db.sandboxes && IsLive(s.db.sandboxes[b].status))
  }

  // ---------------------------------------------------------------- one step

  /** The steps that touch sandbox rows. */
  predicate TouchesBoxes(step: Step) {
    || step.DoDeleteEphemeral? || step.DoClaim? || step.DoMarkRunning? || step.DoFinishFailedCreation?
    || step.DoTerminateFinish? || step.DoRenew? || step.DoRetireDelete? || step.DoAdopt? || step.DoFinishLost?
  }

  lemma StillBox(s: World, step: Step, s': World, b: string)
    requires s'.db.sandboxes == s.db.sandboxes && !TouchesBoxes(step)
    ensures BoxStep(s, step, s', b)
  {
  }

  lemma LifecycleBoxless(s: World, step: Step, s': World, b: string)
    requires LifecycleNext(s, step, s') && !TouchesBoxes(step)
    ensures BoxStep(s, step, s', b)
  {
    StillBox(s, step, s', b);
  }

  lemma CreateBoxless(s: World, step: Step, s': World, b: string)
    requires CreateNext(s, step, s') && !TouchesBoxes(step)
    ensures BoxStep(s, step, s', b)
  {
    StillBox(s, step, s', b);
  }

  lemma TerminateBoxless(s: World, step: Step, s': World, b: string)
    requires TerminateNext(s, step, s') && !TouchesBoxes(step)
    ensures BoxStep(s, step, s', b)
  {
    StillBox(s, step, s', b);
  }

  lemma RequestBoxless(s: World, step: Step, s': World, b: string)
    requires RequestNext(s, step, s')
    ensures BoxStep(s, step, s', b)
  {
    StillBox(s, step, s', b);
  }

  lemma SaveBoxless(s: World, step: Step, s': World, b: string)
    requires SaveNext(s, step, s')
    ensures BoxStep(s, step, s', b)
  {
    StillBox(s, step, s', b);
  }

  lemma RestoreBoxless(s: World, step: Step, s': World, b: string)
    requires RestoreNext(s, step, s')
    ensures BoxStep(s, step, s', b)
  {
    StillBox(s, step, s', b);
  }

  lemma RetainBoxless(s: World, step: Step, s': World, b: string)
    requires RetainNext(s, step, s') && !TouchesBoxes(step)
    ensures BoxStep(s, step, s', b)
  {
    StillBox(s, step, s', b);
  }

  lemma StartupBoxless(s: World, step: Step, s': World, b: string)
    requires StartupNext(s, step, s') && !TouchesBoxes(step)
    ensures BoxStep(s, step, s', b)
  {
    StillBox(s, step, s', b);
  }

  lemma DeletedBox(s: World, step: Step, s': World, w: string, b: string)
    requires step.DoDeleteEphemeral? || step.DoRetireDelete?
    requires var r := DeleteWorkspaceTx(s.db, w); r.Ok? && s'.db == r.value
    requires b in s.db.sandboxes && s.db.sandboxes[b].workspaceId == w ==>
               || step == DoDeleteEphemeral(w)
               || (step.DoRetireDelete? && step.t in s.tasks && s.tasks[step.t] == Retiring(w))
    ensures BoxStep(s, step, s', b)
  {
  }

  lemma ClaimedBox(s: World, s': World, w: string, c: string, host: string, ttl: int, b: string)
    requires Claim(s, s', w, c, host, ttl)
    ensures BoxStep(s, DoClaim(w, c, host, ttl), s', b)
  {
  }

  lemma MarkedBox(s: World, step: Step, s': World, c: string, b: string)
    requires (step.DoMarkRunning? && IsOf(s, step.t, c)) || step == DoAdopt(c)
    requires var r := MarkRunningTx(s.db, c, s.clock);
             r.Ok? && s'.db == r.value
    ensures BoxStep(s, step, s', b)
  {
  }

  lemma FinishedBox(s: World, step: Step, s': World, c: string, to: WorkspaceStatus, b: string)
    requires Ended(s, step) == Some(c)
    requires var status := if step.DoTerminateFinish? then Terminated else SandboxStatus.Failed;
             var r := FinishTx(s.db, c, status, to, s.clock);
             s'.db == (if r.Ok? then r.value else s.db) && (r.Ok? || c !in s.db.sandboxes)
    ensures BoxStep(s, step, s', b)
  {
  }

  lemma RenewedBox(s: World, s': World, c: string, ttl: int, b: string)
    requires Renew(s, s', c, ttl)
    ensures BoxStep(s, DoRenew(c, ttl), s', b)
  {
  }

  lemma AdoptedBox(s: World, s': World, c: string, b: string)
    requires Adopt(s, s', c)
    ensures BoxStep(s, DoAdopt(c), s', b)
  {
    if s.db.sandboxes[c].status == SandboxStatus.Starting {
      MarkedBox(s, DoAdopt(c), s', c, b);
    }
  }

  lemma EndedBox(s: World, step: Step, s': World, b: string)
    requires Inv(s)
    requires (step.DoFinishFailedCreation? && FinishFailedCreation(s, s', step.t))
             || (step.DoTerminateFinish? && TerminateFinish(s, s', step.t))
    ensures BoxStep(s, step, s', b)
  {
    var task := s.tasks[step.t];
    var c := task.sandboxId;
    if c in s.db.sandboxes {
      OwnerStands(s, c);
    }
    FinishedBox(s, step, s', c,
                FinishedStatus(if task.Terminating? then task.recoverable else task.workspaceId !in s.minted), b);
  }

  lemma LostBox(s: World, s': World, c: string, b: string)
    requires FinishLost(s, s', c)
    ensures BoxStep(s, DoFinishLost(c), s', b)
  {
    FinishedBox(s, DoFinishLost(c), s', c, FinishedStatus(s.db.sandboxes[c].workspaceId !in s.minted), b);
  }

  lemma LifecycleBox(s: World, step: Step, s': World, b: string)
    requires LifecycleNext(s, step, s')
    ensures BoxStep(s, step, s', b)
  {
    if step.DoDeleteEphemeral? {
      DeletedBox(s, step, s', step.w, b);
    } else {
      LifecycleBoxless(s, step, s', b);
    }
  }

  lemma CreateBox(s: World, step: Step, s': World, b: string)
    requires Inv(s) && CreateNext(s, step, s')
    ensures BoxStep(s, step, s', b)
  {
    if step.DoFinishFailedCreation? {
      EndedBox(s, step, s', b);
    } else {
      BegunBox(s, step, s', b);
    }
  }

  lemma BegunBox(s: World, step: Step, s': World, b: string)
    requires CreateNext(s, step, s') && !step.DoFinishFailedCreation?
    ensures BoxStep(s, step, s', b)
  {
    if step.DoClaim? {
      ClaimedBox(s, s', step.w, step.sandboxId, step.host, step.ttl, b);
    } else if step.DoMarkRunning? {
      MarkedBox(s, step, s', s.tasks[step.t].sandboxId, b);
    } else {
      CreateBoxless(s, step, s', b);
    }
  }

  lemma TerminateBox(s: World, step: Step, s': World, b: string)
    requires Inv(s) && TerminateNext(s, step, s')
    ensures BoxStep(s, step, s', b)
  {
    if step.DoTerminateFinish? {
      EndedBox(s, step, s', b);
    } else if step.DoRenew? {
      RenewedBox(s, s', step.sandboxId, step.ttl, b);
    } else {
      TerminateBoxless(s, step, s', b);
    }
  }

  lemma RetainBox(s: World, step: Step, s': World, b: string)
    requires RetainNext(s, step, s')
    ensures BoxStep(s, step, s', b)
  {
    if step.DoRetireDelete? {
      DeletedBox(s, step, s', s.tasks[step.t].workspaceId, b);
    } else {
      RetainBoxless(s, step, s', b);
    }
  }

  lemma StartupBox(s: World, step: Step, s': World, b: string)
    requires StartupNext(s, step, s')
    ensures BoxStep(s, step, s', b)
  {
    if step.DoAdopt? {
      AdoptedBox(s, s', step.sandboxId, b);
    } else if step.DoFinishLost? {
      LostBox(s, s', step.sandboxId, b);
    } else {
      StartupBoxless(s, step, s', b);
    }
  }

  /** Every step treats every sandbox row as the table says. */
  lemma NextBox(s: World, step: Step, s': World, b: string)
    requires Inv(s) && Next(s, step, s')
    ensures BoxStep(s, step, s', b)
  {
    if LifecycleNext(s, step, s') {
      LifecycleBox(s, step, s', b);
    } else if CreateNext(s, step, s') {
      CreateBox(s, step, s', b);
    } else if TerminateNext(s, step, s') {
      TerminateBox(s, step, s', b);
    } else if RequestNext(s, step, s') {
      RequestBoxless(s, step, s', b);
    } else if SaveNext(s, step, s') {
      SaveBoxless(s, step, s', b);
    } else if RestoreNext(s, step, s') {
      RestoreBoxless(s, step, s', b);
    } else if RetainNext(s, step, s') {
      RetainBox(s, step, s', b);
    } else if StartupNext(s, step, s') {
      StartupBox(s, step, s', b);
    }
  }

  lemma RunBox(run: Run, i: nat, b: string)
    requires run.Valid() && i < |run.steps|
    ensures BoxStep(run.worlds[i], run.steps[i], run.worlds[i + 1], b)
  {
    RunInv(run, i);
    assert run.StepAt(i);
    NextBox(run.worlds[i], run.steps[i], run.worlds[i + 1], b);
  }

  // ---------------------------------------------------------------- leases

  predicate LiveIn(s: World, b: string) {
    b in s.db.sandboxes && IsLive(s.db.sandboxes[b].status)
  }

  /** Step `j` grants `b` a lease until `expiry`: by its claim, or by a renewal while it runs. */
  ghost predicate GrantsLease(run: Run, j: nat, b: string, expiry: int)
    requires run.Valid() && j < |run.steps|
  {
    match run.steps[j]
    case DoClaim(_, c, _, ttl) => c == b && expiry == run.worlds[j].clock + ttl
    case DoRenew(c, ttl) => c == b && expiry == run.worlds[j].clock + ttl && LiveIn(run.worlds[j], b)
    case _ => false
  }

  predicate Renews(step: Step, b: string) {
    step.DoRenew? && step.sandboxId == b
  }

  /** The expiry of a live sandbox is the one that was granted last. */
  lemma {:induction false} LeaseWasGranted(run: Run, i: nat, b: string) returns (j: nat)
    requires run.Valid() && i < |run.worlds| && LiveIn(run.worlds[i], b)
    ensures run.worlds[i].db.sandboxes[b].expiresAt.Some? && j < i
    ensures GrantsLease(run, j, b, run.worlds[i].db.sandboxes[b].expiresAt.value)
    ensures forall k :: j < k < i ==> !Renews(run.steps[k], b)
  {
    assert i > 0;
    var s, step := run.worlds[i - 1], run.steps[i - 1];
    RunBox(run, i - 1, b);
    if (step.DoClaim? && step.sandboxId == b) || Renews(step, b) {
      j := i - 1;
    } else {
      j := LeaseWasGranted(run, i - 1, b);
    }
  }
}
