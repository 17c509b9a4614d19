/** Every live sandbox has somebody who will end it: a record, or a coroutine at work on it. */
module ManagerCare {
  import opened Prelude
  import opened StateTables
  import opened ManagerProtocol
  import opened ManagerInvariant
  import opened ManagerSteps
  import opened ManagerStatus
  import opened ManagerBoxes

  // ---------------------------------------------------------------- one step

  /** A record goes only when its sandbox is being terminated, or with the process. */
  predicate RecordStep(s: World, step: Step, s': World, b: string) {
    b in s.records ==> b in s'.records || step.DoCrash? || (step.DoTerminatePop? && IsOf(s', step.t, b))
  }

  /** A coroutine at work on a sandbox goes on, leaves a record, ends the sandbox, or goes with the process. */
  predicate TaskStep(s: World, step: Step, s': World, t: nat, b: string) {
    t < s.nextTask && IsOf(s, t, b) ==>
      || IsOf(s', t, b) || step.DoCrash?
      || (step.DoKeepRecord? && b in s'.records)
      || Ended(s, step) == Some(b)
  }

  predicate CareStep(s: World, step: Step, s': World, t: nat, b: string) {
    && RecordStep(s, step, s', b) && TaskStep(s, step, s', t, b)
    && (step.DoClaim? && step.sandboxId == b ==> IsOf(s', s.nextTask, b))
    && (step.DoCrash? ==> s'.mode == Booting)
    && (s'.mode == Serving ==> s.mode == Serving || (step.DoServe? && s'.records.Keys == ActiveSandboxes(s'.db)))
  }

  lemma LifecycleCare(s: World, step: Step, s': World, t: nat, b: string)
    requires LifecycleNext(s, step, s')
    ensures CareStep(s, step, s', t, b)
  {
  }

  lemma CreateCare(s: World, step: Step, s': World, t: nat, b: string)
    requires CreateNext(s, step, s')
    ensures CareStep(s, step, s', t, b)
  {
  }

  lemma TerminateCare(s: World, step: Step, s': World, t: nat, b: string)
    requires TerminateNext(s, step, s')
    ensures CareStep(s, step, s', t, b)
  {
  }

  lemma RequestCare(s: World, step: Step, s': World, t: nat, b: string)
    requires RequestNext(s, step, s')
    ensures CareStep(s, step, s', t, b)
  {
  }

  lemma SaveCare(s: World, step: Step, s': World, t: nat, b: string)
    requires SaveNext(s, step, s')
    ensures CareStep(s, step, s', t, b)
  {
  }

  lemma RestoreCare(s: World, step: Step, s': World, t: nat, b: string)
    requires RestoreNext(s, step, s')
    ensures CareStep(s, step, s', t, b)
  {
  }

  lemma RetainCare(s: World, step: Step, s': World, t: nat, b: string)
    requires RetainNext(s, step, s')
    ensures CareStep(s, step, s', t, b)
  {
  }

  lemma StartupCare(s: World, step: Step, s': World, t: nat, b: string)
    requires StartupNext(s, step, s')
    ensures CareStep(s, step, s', t, b)
  {
  }

  lemma NextCare(s: World, step: Step, s': World, t: nat, b: string)
    requires Next(s, step, s')
    ensures CareStep(s, step, s', t, b)
  {
    if LifecycleNext(s, step, s') {
      LifecycleCare(s, step, s', t, b);
    } else if CreateNext(s, step, s') {
      CreateCare(s, step, s', t, b);
    } else if TerminateNext(s, step, s') {
      TerminateCare(s, step, s', t, b);
    } else if RequestNext(s, step, s') {
      RequestCare(s, step, s', t, b);
    } else if SaveNext(s, step, s') {
      SaveCare(s, step, s', t, b);
    } else if RestoreNext(s, step, s') {
      RestoreCare(s, step, s', t, b);
    } else if RetainNext(s, step, s') {
      RetainCare(s, step, s', t, b);
    } else if StartupNext(s, step, s') {
      StartupCare(s, step, s', t, b);
    }
  }

  // ---------------------------------------------------------------- whole runs

  ghost predicate Managed(s: World, b: string) {
    b in s.records || exists t :: IsOf(s, t, b)
  }

  lemma RecordCare(s: World, step: Step, s': World, b: string)
    requires CareStep(s, step, s', 0, b) && b in s.records && s'.mode == Serving
    ensures Managed(s', b)
  {
  }

  lemma TaskCare(s: World, step: Step, s': World, t: nat, b: string)
    requires CareStep(s, step, s', t, b) && t < s.nextTask && IsOf(s, t, b) && s'.mode == Serving
    requires BoxStep(s, step, s', b) && LiveIn(s, b) && LiveIn(s', b)
    ensures Managed(s', b)
  {
  }

  lemma ClaimCare(s: World, step: Step, s': World, b: string)
    requires CareStep(s, step, s', 0, b) && step.DoClaim? && step.sandboxId == b
    ensures Managed(s', b)
  {
  }

  lemma ServeCare(s: World, step: Step, s': World, b: string)
    requires CareStep(s, step, s', 0, b) && s.mode == Booting && s'.mode == Serving && LiveIn(s', b)
    ensures Managed(s', b)
  {
    assert b in ActiveSandboxes(s'.db);
  }

  lemma BecomesLive(s: World, step: Step, s': World, b: string)
    requires BoxStep(s, step, s', b) && LiveIn(s', b)
    ensures LiveIn(s, b) || (step.DoClaim? && step.sandboxId == b)
  {
  }

  lemma RunCare(run: Run, i: nat, t: nat, b: string)
    requires run.Valid() && i < |run.steps|
    ensures t in run.worlds[i].tasks ==> t < run.worlds[i].nextTask
    ensures CareStep(run.worlds[i], run.steps[i], run.worlds[i + 1], t, b)
  {
    RunInv(run, i);
    assert run.StepAt(i);
    NextCare(run.worlds[i], run.steps[i], run.worlds[i + 1], t, b);
  }

  /**
    While the Manager serves, every live sandbox has a record, by which it can be terminated and
    is reaped, or a coroutine that is creating or terminating it.
   */
  lemma {:induction false} LiveIsManaged(run: Run, i: nat, b: string)
    requires run.Valid() && i < |run.worlds| && run.worlds[i].mode == Serving
    requires LiveIn(run.worlds[i], b)
    ensures Managed(run.worlds[i], b)
  {
    assert i > 0;
    var s, step, s' := run.worlds[i - 1], run.steps[i - 1], run.worlds[i];
    RunBox(run, i - 1, b);
    RunCare(run, i - 1, 0, b);
    BecomesLive(s, step, s', b);
    if s.mode == Booting {
      ServeCare(s, step, s', b);
    } else if !LiveIn(s, b) {
      ClaimCare(s, step, s', b);
    } else {
      LiveIsManaged(run, i - 1, b);
      if b in s.records {
        RecordCare(s, step, s', b);
      } else {
        var t :| IsOf(s, t, b);
        RunCare(run, i - 1, t, b);
        TaskCare(s, step, s', t, b);
      }
    }
  }

  /** So has every Worker container. */
  lemma WorkerIsManaged(run: Run, i: nat, b: string)
    requires run.Valid() && i < |run.worlds| && run.worlds[i].mode == Serving
    requires b in run.worlds[i].containers
    ensures Managed(run.worlds[i], b)
  {
    RunInv(run, i);
    assert IsWriterOf(b, run.worlds[i].containers[b], run.worlds[i].db.sandboxes);
    LiveIsManaged(run, i, b);
  }
}
