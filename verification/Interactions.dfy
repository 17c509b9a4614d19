/**
  Decisions that an MCP App's user is asked for.  A tool call waits for the decision while it may
  be resolved, expire, be cancelled with its response or be deleted with it.
 */
module Interactions {
  import opened Prelude

  datatype Action = Accept | Decline | Cancel

  datatype Answer = Answer(action: Action, content: Option<string>, meta: Option<string>)

  datatype Status = Pending | Resolved | Expired | Cancelled

  /** `future` is what the waiting tool call gets; `result` is what the record shows. */
  datatype Interaction = Interaction(responseId: string, status: Status, result: Option<Answer>, future: Option<Answer>)

  datatype Error = InteractionNotFound | AlreadyResolved

  datatype Table = Table(
    records: map<string, Interaction>,         // every interaction ever made
    listed: set<string>,                       // those that can still be looked up
    byResponse: map<string, set<string>>)

  const CANCEL_ANSWER := Answer(Cancel, None, None)

  /** Content is kept for an acceptance only. */
  function AnswerOf(request: Answer): Answer {
    request.(content := if request.action == Accept then request.content else None)
  }

  function Settle(i: Interaction, status: Status, a: Answer): Interaction {
    i.(status := status, result := Some(a), future := if i.future == None then Some(a) else i.future)
  }

  function IdsOf(t: Table, responseId: string): set<string> {
    if responseId in t.byResponse then t.byResponse[responseId] else {}
  }

  function Create(t: Table, id: string, responseId: string): Table {
    Table(t.records[id := Interaction(responseId, Pending, None, None)],
          t.listed + {id},
          t.byResponse[responseId := IdsOf(t, responseId) + {id}])
  }

  function Resolve(t: Table, id: string, request: Answer): (Table, Result<Interaction, Error>) {
    if id !in t.listed || id !in t.records then (t, Err(InteractionNotFound))
    else if t.records[id].status != Pending then (t, Err(AlreadyResolved))
    else
      var settled := Settle(t.records[id], Resolved, AnswerOf(request));
      (t.(records := t.records[id := settled]), Ok(settled))
  }

  function Expire(t: Table, id: string): (Table, Result<Interaction, Error>) {
    if id !in t.listed || id !in t.records then (t, Err(InteractionNotFound))
    else if t.records[id].status != Pending then (t, Ok(t.records[id]))
    else
      var settled := Settle(t.records[id], Expired, CANCEL_ANSWER);
      (t.(records := t.records[id := settled]), Ok(settled))
  }

  function CancelAll(records: map<string, Interaction>, ids: set<string>): map<string, Interaction> {
    map id | id in records ::
      if id in ids && records[id].status == Pending then Settle(records[id], Cancelled, CANCEL_ANSWER)
      else records[id]
  }

  function CancelResponse(t: Table, responseId: string): Table {
    t.(records := CancelAll(t.records, IdsOf(t, responseId) * t.listed))
  }

  function DropAll(records: map<string, Interaction>, ids: set<string>): map<string, Interaction> {
    map id | id in records ::
      if id in ids && records[id].future == None then
        records[id].(status := Cancelled, result := Some(CANCEL_ANSWER), future := Some(CANCEL_ANSWER))
      else records[id]
  }

  function DeleteResponse(t: Table, responseId: string): Table {
    var ids := IdsOf(t, responseId);
    Table(DropAll(t.records, ids * t.listed), t.listed - ids, t.byResponse - {responseId})
  }

  // ---------------------------------------------------------------- the table as an object

  predicate Consistent(t: Table) {
    && t.listed <= t.records.Keys
    && (forall r, id :: r in t.byResponse && id in t.byResponse[r] ==> id in t.listed && t.records[id].responseId == r)
    && (forall id :: id in t.listed ==> id in IdsOf(t, t.records[id].responseId))
  }

  class McpAppsState {
    var records: map<string, Interaction>
    var listed: set<string>
    var byResponse: map<string, set<string>>

    constructor ()
      ensures Current() == Table(map[], {}, map[])
    {
      records, listed, byResponse := map[], {}, map[];
    }

    function Current(): Table
      reads this
    {
      Table(records, listed, byResponse)
    }

    method CreateInteraction(id: string, responseId: string)
      requires id !in records
      modifies this
      ensures Current() == Create(old(Current()), id, responseId)
    {
      records := records[id := Interaction(responseId, Pending, None, None)];
      listed := listed + {id};
      var ids := if responseId in byResponse then byResponse[responseId] else {};
      byResponse := byResponse[responseId := ids + {id}];
    }

    method SettleRecord(id: string, status: Status, a: Answer)
      requires id in records
      modifies this`records
      ensures records == old(records)[id := Settle(old(records)[id], status, a)]
    {
      var i := records[id].(status := status, result := Some(a));
      if i.future == None {
        i := i.(future := Some(a));
      }
      records := records[id := i];
    }

    method ResolveInteraction(id: string, request: Answer) returns (r: Result<Interaction, Error>)
      requires listed <= records.Keys
      modifies this
      ensures (Current(), r) == Resolve(old(Current()), id, request)
    {
      if id !in listed {
        return Err(InteractionNotFound);
      }
      if records[id].status != Pending {
        return Err(AlreadyResolved);
      }
      var content := if request.action == Accept then request.content else None;
      SettleRecord(id, Resolved, Answer(request.action, content, request.meta));
      r := Ok(records[id]);
    }

    method ExpireInteraction(id: string) returns (r: Result<Interaction, Error>)
      requires listed <= records.Keys
      modifies this
      ensures (Current(), r) == Expire(old(Current()), id)
    {
      if id !in listed {
        return Err(InteractionNotFound);
      }
      if records[id].status == Pending {
        SettleRecord(id, Expired, CANCEL_ANSWER);
      }
      r := Ok(records[id]);
    }

    method CancelResponseInteractions(responseId: string)
      requires listed <= records.Keys
      modifies this
      ensures Current() == CancelResponse(old(Current()), responseId)
    {
      ghost var all := IdsOf(Current(), responseId) * listed;
      var todo := if responseId in byResponse then byResponse[responseId] else {};
      ghost var ids := todo;
      while todo != {}
        invariant todo <= ids && listed == old(listed) && byResponse == old(byResponse)
        invariant records == CancelAll(old(records), all - todo)
        decreases |todo|
      {
        var id :| id in todo;
        todo := todo - {id};
        if id in listed && records[id].status == Pending {
          SettleRecord(id, Cancelled, CANCEL_ANSWER);
        }
      }
      assert all - todo == all;
    }

    method DeleteResponseState(responseId: string)
      requires listed <= records.Keys
      modifies this
      ensures Current() == DeleteResponse(old(Current()), responseId)
    {
      ghost var all := IdsOf(Current(), responseId) * listed;
      var todo := if responseId in byResponse then byResponse[responseId] else {};
      ghost var ids := todo;
      byResponse := byResponse - {responseId};
      while todo != {}
        invariant todo <= ids && listed == old(listed) - (ids - todo)
        invariant byResponse == old(byResponse) - {responseId}
        invariant records == DropAll(old(records), all - todo)
        decreases |todo|
      {
        var id :| id in todo;
        todo := todo - {id};
        if id in listed {
          listed := listed - {id};
          if records[id].future == None {
            var i := records[id].(status := Cancelled);
            records := records[id := i.(result := Some(CANCEL_ANSWER), future := Some(CANCEL_ANSWER))];
          }
        }
      }
      assert all - todo == all;
    }
  }

  // ---------------------------------------------------------------- the race

  /** The tool call that asked: the future wakes it, or its timeout makes it expire the question. */
  datatype Waiter = Waiting | TimedOut | Answered(answer: Answer) | Failed

  datatype World = World(table: Table, waiters: map<string, Waiter>)

  datatype Step =
    | DoAsk(id: string, responseId: string)
    | DoResolve(id: string, request: Answer)
    | DoCancelResponse(responseId: string)
    | DoDeleteResponse(responseId: string)
    | DoWake(id: string)
    | DoTimeOut(id: string)
    | DoExpire(id: string)

  ghost predicate Init(w: World) {
    w == World(Table(map[], {}, map[]), map[])
  }

  /** The answer after the timeout: the recorded result, or a cancellation if there is none. */
  function AfterExpiry(r: Result<Interaction, Error>): Waiter {
    match r
    case Ok(i) => Answered(if i.result.Some? then i.result.value else CANCEL_ANSWER)
    case Err(_) => Failed
  }

  predicate Next(w: World, step: Step, w': World) {
    match step
    case DoAsk(id, responseId) =>
      && id !in w.table.records
      && w' == World(Create(w.table, id, responseId), w.waiters[id := Waiting])
    case DoResolve(id, request) => w' == w.(table := Resolve(w.table, id, request).0)
    case DoCancelResponse(responseId) => w' == w.(table := CancelResponse(w.table, responseId))
    case DoDeleteResponse(responseId) => w' == w.(table := DeleteResponse(w.table, responseId))
    case DoWake(id) =>
      && id in w.waiters && w.waiters[id] == Waiting
      && id in w.table.records && w.table.records[id].future.Some?
      && w' == w.(waiters := w.waiters[id := Answered(w.table.records[id].future.value)])
    case DoTimeOut(id) =>
      // the timeout may fire although the future has just been set
      id in w.waiters && w.waiters[id] == Waiting && w' == w.(waiters := w.waiters[id := TimedOut])
    case DoExpire(id) =>
      && id in w.waiters && w.waiters[id] == TimedOut
      && var (table, r) := Expire(w.table, id);
      && w' == World(table, w.waiters[id := AfterExpiry(r)])
  }

  /** The future is done exactly when the interaction is decided, and holds the recorded result. */
  predicate Sound(i: Interaction) {
    i.future == i.result && (i.future == None <==> i.status == Pending)
  }

  predicate WaiterInv(t: Table, id: string, waiter: Waiter) {
    && id in t.records
    && match waiter
       case Answered(a) => t.records[id].future == Some(a)
       case Failed => id !in t.listed
       case _ => true
  }

  ghost predicate Inv(w: World) {
    && AllSound(w.table)
    && (forall id :: id in w.waiters ==> WaiterInv(w.table, id, w.waiters[id]))
  }

  /** A decided interaction stays as it is, and none disappears. */
  ghost predicate Preserves(a: map<string, Interaction>, b: map<string, Interaction>) {
    forall id :: id in a ==> id in b && (a[id].status != Pending ==> b[id] == a[id])
  }

  ghost predicate AllSound(t: Table) {
    Consistent(t) && forall id :: id in t.records ==> Sound(t.records[id])
  }

  /** The table stays consistent, keeps every decision and never lists again what it dropped. */
  ghost predicate Advances(t: Table, t': Table) {
    && AllSound(t') && Preserves(t.records, t'.records)
    && forall id :: id in t.records && id !in t.listed ==> id !in t'.listed
  }

  lemma CreateAdvances(t: Table, id: string, responseId: string)
    requires AllSound(t) && id !in t.records
    ensures Advances(t, Create(t, id, responseId))
  {
  }

  lemma SettleAdvances(t: Table, id: string, status: Status, a: Answer)
    requires AllSound(t) && id in t.records && t.records[id].status == Pending && status != Pending
    ensures Advances(t, t.(records := t.records[id := Settle(t.records[id], status, a)]))
  {
    assert Sound(t.records[id]);
  }

  lemma CancelAdvances(t: Table, responseId: string)
    requires AllSound(t)
    ensures Advances(t, CancelResponse(t, responseId))
  {
    var t' := CancelResponse(t, responseId);
    forall id | id in t'.records ensures Sound(t'.records[id]) {
      assert Sound(t.records[id]);
    }
  }

  lemma DeleteAdvances(t: Table, responseId: string)
    requires AllSound(t)
    ensures Advances(t, DeleteResponse(t, responseId))
  {
    var t' := DeleteResponse(t, responseId);
    forall r, id | r in t'.byResponse && id in t'.byResponse[r]
      ensures id in t'.listed && t'.records[id].responseId == r
    {
      assert r in t.byResponse && id in t.byResponse[r] && r != responseId;
      assert t.records[id].responseId == r;
      assert responseId in t.byResponse ==> id !in t.byResponse[responseId];
    }
    forall id | id in t'.records
      ensures Sound(t'.records[id]) && (t.records[id].status != Pending ==> t'.records[id] == t.records[id])
    {
      assert Sound(t.records[id]);
    }
  }

  lemma NextTable(w: World, step: Step, w': World)
    requires AllSound(w.table) && Next(w, step, w')
    ensures Advances(w.table, w'.table)
  {
    match step
    case DoAsk(id, responseId) => CreateAdvances(w.table, id, responseId);
    case DoResolve(id, request) =>
      if Resolve(w.table, id, request).1.Ok? {
        SettleAdvances(w.table, id, Resolved, AnswerOf(request));
      }
    case DoCancelResponse(responseId) => CancelAdvances(w.table, responseId);
    case DoDeleteResponse(responseId) => DeleteAdvances(w.table, responseId);
    case DoExpire(id) =>
      if w'.table != w.table {
        SettleAdvances(w.table, id, Expired, CANCEL_ANSWER);
      }
    case _ =>
  }

  lemma NextInv(w: World, step: Step, w': World)
    requires Inv(w) && Next(w, step, w')
    ensures Inv(w')
  {
    NextTable(w, step, w');
    forall id | id in w'.waiters ensures WaiterInv(w'.table, id, w'.waiters[id]) {
      if id in w.waiters {
        assert WaiterInv(w.table, id, w.waiters[id]);
      }
    }
  }

  datatype Run = Run(worlds: seq<World>, steps: seq<Step>) {
    ghost predicate StepAt(i: nat)
      requires |worlds| == |steps| + 1
    {
      i < |steps| && Next(worlds[i], steps[i], worlds[i + 1])
    }

    ghost predicate Valid() {
      && |worlds| == |steps| + 1 && Init(worlds[0])
      && forall i: nat {:trigger StepAt(i)} :: i < |steps| ==> StepAt(i)
    }
  }

  lemma {:induction false} RunInv(run: Run, i: nat)
    requires run.Valid() && i < |run.worlds|
    ensures Inv(run.worlds[i])
  {
    if i > 0 {
      RunInv(run, i - 1);
      assert run.StepAt(i - 1);
      NextInv(run.worlds[i - 1], run.steps[i - 1], run.worlds[i]);
    }
  }

  /** The first decision wins: status, result and future never change once it is taken. */
  lemma {:induction false} FirstDecisionWins(run: Run, i: nat, j: nat, id: string)
    requires run.Valid() && i <= j < |run.worlds|
    requires id in run.worlds[i].table.records && run.worlds[i].table.records[id].status != Pending
    ensures id in run.worlds[j].table.records
    ensures run.worlds[j].table.records[id] == run.worlds[i].table.records[id]
    decreases j - i
  {
    if i < j {
      RunInv(run, i);
      assert run.StepAt(i);
      NextTable(run.worlds[i], run.steps[i], run.worlds[i + 1]);
      FirstDecisionWins(run, i + 1, j, id);
    }
  }

  /** At any time the future is done iff the interaction is decided, with the recorded result. */
  lemma FutureHoldsTheResult(run: Run, i: nat, id: string)
    requires run.Valid() && i < |run.worlds| && id in run.worlds[i].table.records
    ensures var x := run.worlds[i].table.records[id];
            x.future == x.result && (x.future.Some? <==> x.status != Pending)
  {
    RunInv(run, i);
    assert Sound(run.worlds[i].table.records[id]);
  }

  /**
    What the tool call returns is the recorded decision, even when its timeout races a resolve;
    it fails only when the response has been deleted.
   */
  lemma ToolGetsTheDecision(run: Run, i: nat, id: string)
    requires run.Valid() && i < |run.worlds| && id in run.worlds[i].waiters
    ensures var w := run.worlds[i];
            && id in w.table.records
            && (w.waiters[id].Answered? ==>
                  w.table.records[id].status != Pending && w.table.records[id].result == Some(w.waiters[id].answer))
            && (w.waiters[id].Failed? ==> id !in w.table.listed)
  {
    RunInv(run, i);
    var w := run.worlds[i];
    assert WaiterInv(w.table, id, w.waiters[id]) && Sound(w.table.records[id]);
  }

  /** Cancelling or deleting a response leaves none of its interactions pending. */
  lemma NonePendingAfterwards(run: Run, i: nat, responseId: string, id: string)
    requires run.Valid() && i < |run.steps| && id in run.worlds[i].table.listed
    requires run.steps[i] == DoCancelResponse(responseId) || run.steps[i] == DoDeleteResponse(responseId)
    requires id in run.worlds[i].table.records && run.worlds[i].table.records[id].responseId == responseId
    ensures var t := run.worlds[i + 1].table;
            && id in t.records && t.records[id].status != Pending && t.records[id].future.Some?
            && (run.steps[i].DoDeleteResponse? ==> id !in t.listed)
  {
    RunInv(run, i);
    assert run.StepAt(i);
    assert Sound(run.worlds[i].table.records[id]);
    NextTable(run.worlds[i], run.steps[i], run.worlds[i + 1]);
    assert Sound(run.worlds[i + 1].table.records[id]);
  }

  // ---------------------------------------------------------------- what was decided, and by whom

  /** The answer to a request: its action and meta, and its content for an acceptance only. */
  predicate Answers(a: Answer, request: Answer) {
    && a.action == request.action && a.meta == request.meta
    && a.content == match request.action
                    case Accept => request.content
                    case Decline => None
                    case Cancel => None
  }

  predicate IsCancellation(a: Answer) {
    a.action == Cancel && a.content == None && a.meta == None
  }

  predicate CanDecide(t: Table, id: string) {
    id in t.listed && id in t.records && t.records[id].status == Pending
  }

  /** The step took the decision that `x` shows, on an interaction that was listed and pending. */
  predicate Decides(t: Table, step: Step, id: string, x: Interaction) {
    && CanDecide(t, id) && x.responseId == t.records[id].responseId && x.result.Some?
    && match x.status
       case Pending => false
       case Resolved => step.DoResolve? && step.id == id && Answers(x.result.value, step.request)
       case Expired => step.DoExpire? && step.id == id && IsCancellation(x.result.value)
       case Cancelled =>
         && (step == DoCancelResponse(x.responseId) || step == DoDeleteResponse(x.responseId))
         && IsCancellation(x.result.value)
  }

  predicate SameRecord(t: Table, t': Table, id: string) {
    id in t.records && id in t'.records && t'.records[id] == t.records[id]
  }

  lemma CancelDecides(t: Table, responseId: string, id: string)
    requires AllSound(t) && id in t.records
    ensures var t' := CancelResponse(t, responseId);
            && id in t'.records
            && (SameRecord(t, t', id) || Decides(t, DoCancelResponse(responseId), id, t'.records[id]))
  {
  }

  lemma DeleteDecides(t: Table, responseId: string, id: string)
    requires AllSound(t) && id in t.records
    ensures var t' := DeleteResponse(t, responseId);
            && id in t'.records
            && (SameRecord(t, t', id) || Decides(t, DoDeleteResponse(responseId), id, t'.records[id]))
  {
    assert Sound(t.records[id]);
  }

  lemma ResolveDecides(t: Table, id: string, request: Answer, other: string)
    requires AllSound(t) && other in t.records
    ensures var t' := Resolve(t, id, request).0;
            && other in t'.records
            && (SameRecord(t, t', other) || Decides(t, DoResolve(id, request), other, t'.records[other]))
  {
  }

  lemma ExpireDecides(t: Table, id: string, other: string)
    requires AllSound(t) && other in t.records
    ensures var t' := Expire(t, id).0;
            && other in t'.records
            && (SameRecord(t, t', other) || Decides(t, DoExpire(id), other, t'.records[other]))
  {
  }

  lemma StepDecides(w: World, step: Step, w': World, id: string)
    requires AllSound(w.table) && Next(w, step, w')
    requires id in w'.table.records && w'.table.records[id].status != Pending
    ensures SameRecord(w.table, w'.table, id) || Decides(w.table, step, id, w'.table.records[id])
  {
    match step
    case DoResolve(other, request) => ResolveDecides(w.table, other, request, id);
    case DoCancelResponse(responseId) => CancelDecides(w.table, responseId, id);
    case DoDeleteResponse(responseId) => DeleteDecides(w.table, responseId, id);
    case DoExpire(other) => ExpireDecides(w.table, other, id);
    case _ =>
  }

  /**
    Behind every decision there is the step that took it: a resolution with just what its request
    said, an expiry, or the end of the response, which cancel.
   */
  lemma {:induction false} DecisionWasTaken(run: Run, i: nat, id: string) returns (j: nat)
    requires run.Valid() && i < |run.worlds|
    requires id in run.worlds[i].table.records && run.worlds[i].table.records[id].status != Pending
    ensures j < i && Decides(run.worlds[j].table, run.steps[j], id, run.worlds[i].table.records[id])
  {
    assert i > 0;
    var w, w' := run.worlds[i - 1], run.worlds[i];
    RunInv(run, i - 1);
    assert run.StepAt(i - 1);
    StepDecides(w, run.steps[i - 1], w', id);
    if SameRecord(w.table, w'.table, id) {
      j := DecisionWasTaken(run, i - 1, id);
    } else {
      j := i - 1;
    }
  }

  /** So what a tool call returns goes back to a step that took just this decision. */
  lemma ToolAnswerWasDecided(run: Run, i: nat, id: string) returns (j: nat)
    requires run.Valid() && i < |run.worlds|
    requires id in run.worlds[i].waiters && run.worlds[i].waiters[id].Answered?
    ensures id in run.worlds[i].table.records
    ensures j < i && Decides(run.worlds[j].table, run.steps[j], id, run.worlds[i].table.records[id])
    ensures run.worlds[i].table.records[id].result == Some(run.worlds[i].waiters[id].answer)
  {
    ToolGetsTheDecision(run, i, id);
    j := DecisionWasTaken(run, i, id);
  }

  /** A resolve is taken exactly while the interaction is listed and pending, and answers accordingly. */
  lemma ResolveIsTaken(run: Run, i: nat, id: string, request: Answer)
    requires run.Valid() && i < |run.worlds|
    ensures var t := run.worlds[i].table;
            var (t', r) := Resolve(t, id, request);
            match r
            case Ok(x) =>
              && CanDecide(t, id) && id in t'.records && x == t'.records[id]
              && x.status == Resolved && x.result.Some? && Answers(x.result.value, request)
            case Err(InteractionNotFound) => id !in t.listed && t' == t
            case Err(AlreadyResolved) => id in t.listed && !CanDecide(t, id) && t' == t
  {
    RunInv(run, i);
  }

  /** An expiry decides what is pending and otherwise shows the decision that it finds. */
  lemma ExpireIsTaken(run: Run, i: nat, id: string)
    requires run.Valid() && i < |run.worlds|
    ensures var t := run.worlds[i].table;
            var (t', r) := Expire(t, id);
            match r
            case Ok(x) =>
              && id in t'.records && x == t'.records[id]
              && (if CanDecide(t, id) then x.status == Expired && x.result.Some? && IsCancellation(x.result.value)
                  else SameRecord(t, t', id))
            case Err(e) => e == InteractionNotFound && id !in t.listed && t' == t
  {
    RunInv(run, i);
  }

  /** Asking lists a pending interaction under its response; only the end of that response unlists it. */
  lemma StepListed(w: World, step: Step, w': World, id: string)
    requires AllSound(w.table) && Next(w, step, w')
    ensures step.DoAsk? && step.id == id ==>
              CanDecide(w'.table, id) && w'.table.records[id].responseId == step.responseId
              && id !in w.table.records && w'.waiters == w.waiters[id := Waiting]
    ensures id in w.table.listed ==>
              && id in w.table.records && id in w'.table.records
              && w'.table.records[id].responseId == w.table.records[id].responseId
              && (id in w'.table.listed <==> step != DoDeleteResponse(w.table.records[id].responseId))
  {
  }

  lemma {:induction false} ListedUntilDeleted(run: Run, i: nat, j: nat, id: string)
    requires run.Valid() && i <= j < |run.worlds| && id in run.worlds[i].table.listed
    ensures id in run.worlds[i].table.records && id in run.worlds[j].table.records
    ensures run.worlds[j].table.records[id].responseId == run.worlds[i].table.records[id].responseId
    ensures id in run.worlds[j].table.listed <==>
              forall k :: i <= k < j ==> run.steps[k] != DoDeleteResponse(run.worlds[i].table.records[id].responseId)
    decreases j - i
  {
    RunInv(run, i);
    if i < j {
      ListedUntilDeleted(run, i, j - 1, id);
      RunListed(run, j - 1, id);
    }
  }

  lemma RunListed(run: Run, i: nat, id: string)
    requires run.Valid() && i < |run.steps| && id in run.worlds[i].table.records
    ensures var t, t' := run.worlds[i].table, run.worlds[i + 1].table;
            && id in t'.records && t'.records[id].responseId == t.records[id].responseId
            && (id in t'.listed <==> id in t.listed && run.steps[i] != DoDeleteResponse(t.records[id].responseId))
  {
    var w, step, w' := run.worlds[i], run.steps[i], run.worlds[i + 1];
    RunInv(run, i);
    assert run.StepAt(i);
    StepListed(w, step, w', id);
    NextTable(w, step, w');
    StepKeepsResponse(w, step, w', id);
  }

  lemma StepKeepsResponse(w: World, step: Step, w': World, id: string)
    requires Next(w, step, w') && id in w.table.records
    ensures id in w'.table.records && w'.table.records[id].responseId == w.table.records[id].responseId
  {
  }
}
