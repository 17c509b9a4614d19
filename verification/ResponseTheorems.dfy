/**
  What a client can rely on in a translated stream: positions, finished items, the terminal event
  and the text of the message.
 */
module ResponseTheorems {
  import opened Prelude
  import opened ResponseTranslation
  import opened ResponseInvariant
  import opened ResponseLifecycle

  // ---------------------------------------------------------------- positions and finished items

  /** The events tell where `b` keeps their items, and show done items as `b` keeps them. */
  ghost predicate Shows(b: State, es: seq<Event>) {
    forall k :: 0 <= k < |es| ==> ShowsOne(b, es[k])
  }

  predicate ShowsOne(b: State, e: Event) {
    Subject(e).Some? ==>
      var (id, at) := Subject(e).value;
      && id in b.indexes && b.indexes[id] == at
      && (e.ItemDone? ==>
            FinalItem(e.item) && Expected(b, id) == Done && at < |b.items| && b.items[at] == e.item)
  }

  /** An item reported done is finished: a call has succeeded, or failed with an error. */
  predicate FinalItem(item: Item) {
    match item
    case CallItem(_, status, _, _, _, _, error) => status != InProgress && (status == Failed <==> error.Some?)
    case MessageItem(_, completed, _) => completed
  }

  /** Positions never change, nor do items once they are done. */
  ghost predicate Keeps(b: State, b': State) {
    forall id {:trigger id in b'.indexes} {:trigger Expected(b, id)} :: id in b.indexes ==> KeepsOne(b, b', id)
  }

  predicate KeepsOne(b: State, b': State, id: string)
    requires id in b.indexes
  {
    && id in b'.indexes && b'.indexes[id] == b.indexes[id]
    && (Expected(b, id) == Done && b.indexes[id] < |b.items| ==>
          && Expected(b', id) == Done
          && b.indexes[id] < |b'.items| && b'.items[b.indexes[id]] == b.items[b.indexes[id]])
  }

  ghost predicate Progress(b: State, b': State, more: seq<Event>) {
    Keeps(b, b') && Shows(b', more)
  }

  lemma ProgressCompose(b: State, b1: State, b2: State, first: seq<Event>, second: seq<Event>)
    requires Progress(b, b1, first) && Progress(b1, b2, second)
    ensures Progress(b, b2, first + second)
  {
    forall id | id in b.indexes ensures KeepsOne(b, b2, id) {
      assert KeepsOne(b, b1, id) && KeepsOne(b1, b2, id);
    }
    forall k | 0 <= k < |first| ensures ShowsOne(b2, first[k]) {
      assert ShowsOne(b1, first[k]);
      if Subject(first[k]).Some? {
        assert KeepsOne(b1, b2, Subject(first[k]).value.0);
      }
    }
  }

  lemma StartCallProgress(messages: set<string>, b: State, call: Source)
    requires Valid(b) && Separate(messages, b) && CallId(messages, call)
    ensures var (b', more) := StartCall(b, call); Progress(b, b', more)
  {
    var (b', more) := StartCall(b, call);
    forall id | id in b.indexes ensures KeepsOne(b, b', id) {}
  }

  lemma DoneCallProgress(messages: set<string>, b: State, item: Item, outcome: Event)
    requires Valid(b) && Separate(messages, b) && item.id != "" && item.id !in messages
    requires item.id in b.indexes && item.id !in b.completedCalls && FinalItem(item)
    requires outcome == CallFailed(item.id, b.indexes[item.id])
             || outcome == CallSucceeded(item.id, b.indexes[item.id])
    ensures var (b1, k) := AddItem(b, item);
            Progress(b, b1.(completedCalls := b1.completedCalls + {item.id}), [outcome, ItemDone(k, item)])
  {
    var b1 := AddItem(b, item).0;
    var b2 := b1.(completedCalls := b1.completedCalls + {item.id});
    forall id | id in b.indexes ensures KeepsOne(b, b2, id) {}
  }

  lemma StartedCall(messages: set<string>, b: State, call: Source)
    requires Valid(b) && Separate(messages, b) && CallId(messages, call) && call.id != ""
    ensures var b' := StartCall(b, call).0;
            Separate(messages, b') && call.id in b'.indexes && b'.completedCalls == b.completedCalls
  {
  }

  lemma CompleteCallProgress(messages: set<string>, b: State, call: Source)
    requires Valid(b) && Separate(messages, b) && CallId(messages, call) && !b.terminal
    ensures var (b', more) := CompleteCall(b, call); Progress(b, b', more)
  {
    var (b', more) := CompleteCall(b, call);
    if more != [] {
      var (b1, started) := StartCall(b, call);
      StartCallProgress(messages, b, call);
      StartedCall(messages, b, call);
      var n := |started|;
      DoneCallProgress(messages, b1, CallItemOf(call, true), more[n]);
      ProgressCompose(b, b1, b', started, [more[n], more[n + 1]]);
      assert more == started + [more[n], more[n + 1]];
    }
  }

  lemma StartMessageProgress(b: State, itemId: string)
    requires Valid(b) && !b.terminal
    requires !b.messageStarted && itemId != "" ==> itemId !in b.indexes
    requires !b.messageStarted ==> b.messageId !in b.indexes
    ensures var (b', more) := StartMessage(b, itemId);
            Progress(b, b', more) && b'.messageStarted && !b'.messageCompleted
  {
    var (b', more) := StartMessage(b, itemId);
    forall id | id in b.indexes ensures KeepsOne(b, b', id) {}
  }

  lemma TextProgress(b: State, text: string, delta: string)
    requires Valid(b) && b.messageStarted && !b.messageCompleted
    ensures var b' := SyncMessage(b.(text := text));
            && Progress(b, b', [])
            && Progress(b, b', [TextDelta(b'.messageId, MessageIndexOrZero(b'), delta)])
  {
    var b' := SyncMessage(b.(text := text));
    forall id | id in b.indexes ensures KeepsOne(b, b', id) {}
  }

  lemma AppendTextProgress(messages: set<string>, b: State, delta: string, itemId: string)
    requires Valid(b) && Separate(messages, b) && MessageId(messages, itemId) && !b.terminal
    ensures var (b', more) := AppendText(b, delta, itemId); Progress(b, b', more)
  {
    var (b1, started) := StartMessage(b, itemId);
    StartMessageProgress(b, itemId);
    StartMessageValid(b, itemId);
    var (b', more) := AppendText(b, delta, itemId);
    TextProgress(b1, b1.text + delta, delta);
    ProgressCompose(b, b1, b', started, more[|started|..]);
    assert more == started + more[|started|..];
  }

  lemma SyncCompletedProgress(messages: set<string>, b: State, text: string, itemId: string)
    requires Valid(b) && Separate(messages, b) && MessageId(messages, itemId) && !b.terminal
    ensures var (b', more) := SyncCompleted(b, text, itemId); Progress(b, b', more)
  {
    if text == "" || text == b.text {
      SyncNothing(b, text, itemId);
      StartMessageProgress(b, itemId);
    } else if Extends(text, b.text) {
      SyncMissing(b, text, itemId);
      AppendTextProgress(messages, b, text[|b.text|..], itemId);
    } else {
      SyncReplaces(b, text, itemId);
      var (b1, started) := StartMessage(b, itemId);
      StartMessageProgress(b, itemId);
      StartMessageValid(b, itemId);
      TextProgress(b1, text, "");
      ProgressCompose(b, b1, SyncMessage(b1.(text := text)), started, []);
      assert started + [] == started;
    }
  }

  lemma FinishMessageProgress(b: State)
    requires Valid(b)
    ensures var (b', more) := FinishMessage(b); Progress(b, b', more)
  {
    var (b', more) := FinishMessage(b);
    if more != [] {
      forall id | id in b.indexes ensures KeepsOne(b, b', id) {}
    }
  }

  lemma OutcomeProgress(b: State, b1: State)
    requires Valid(b1) && Synced(b)
    requires b1 == b.(terminal := b1.terminal, status := b1.status, error := b1.error,
                      reason := b1.reason, usage := b1.usage)
    ensures Snapshot(b1).0 == b1
    ensures Progress(b, b1, [Finished(Snapshot(b1).1)])
  {
    forall id | id in b.indexes ensures KeepsOne(b, b1, id) {}
  }

  lemma FinishProgress(b: State, status: ResponseStatus, error: Option<Failure>, reason: Option<Reason>)
    requires Valid(b) && Synced(b)
    ensures var (b', more) := Finish(b, status, error, reason);
            Progress(b, b', more)
  {
    var (b1, done) := FinishMessage(b);
    FinishMessageProgress(b);
    var b2 := b1.(status := status, error := error, reason := reason, terminal := true);
    OutcomeProgress(b1, b2);
    ProgressCompose(b, b1, b2, done, [Finished(Snapshot(b2).1)]);
  }

  lemma EndTurnProgress(b: State, turn: Turn)
    requires Valid(b) && Synced(b)
    ensures var (b', more) := EndTurn(b, turn);
            Progress(b, b', more)
  {
    var (b1, done) := FinishMessage(b);
    FinishMessageProgress(b);
    var b2 := b1.(usage := turn.usage, status := TurnOutcome(turn.status), terminal := true,
                  reason := if turn.status == TurnInterrupted then Some(Cancelled) else b1.reason,
                  error := if turn.status == TurnOther then Some(Failure(TurnFailed, turn.error))
                           else b1.error);
    OutcomeProgress(b1, b2);
    ProgressCompose(b, b1, b2, done, [Finished(Snapshot(b2).1)]);
  }

  lemma {:induction false} CompleteCallsProgress(messages: set<string>, b: State, es: seq<Event>, entries: seq<Entry>)
    requires Sound(messages, b, es) && TurnIds(messages, entries) && !b.terminal
    ensures var (b', more) := CompleteCalls(b, entries); Progress(b, b', more)
  {
    if entries != [] {
      var n := |entries| - 1;
      CompleteCallsProgress(messages, b, es, entries[..n]);
      CompleteCallsSound(messages, b, es, entries[..n]);
      var (b1, calls) := CompleteCalls(b, entries[..n]);
      assert EntryIds(messages, entries[n]);
      if entries[n].CallEntry? {
        CompleteCallProgress(messages, b1, entries[n].call);
        var (b2, more) := CompleteCall(b1, entries[n].call);
        ProgressCompose(b, b1, b2, calls, more);
      }
    }
  }

  lemma SyncFinalProgress(messages: set<string>, b: State, entries: seq<Entry>)
    requires Valid(b) && Separate(messages, b) && TurnIds(messages, entries) && !b.terminal
    ensures var (b', more) := SyncFinal(b, entries); Progress(b, b', more)
  {
    LastMessageId(messages, entries);
    var (final, itemId) := LastMessage(entries);
    if final != "" {
      SyncCompletedProgress(messages, b, final, itemId);
    }
  }

  /** The part of a turn's end that precedes the outcome. */
  lemma BeforeOutcome(messages: set<string>, b: State, es: seq<Event>, entries: seq<Entry>)
    requires Sound(messages, b, es) && TurnIds(messages, entries) && !b.terminal
    ensures var (b1, calls) := CompleteCalls(b, entries);
            var (b2, text) := SyncFinal(b1, entries);
            Progress(b, b2, calls + text) && Valid(b2) && Synced(b2)
  {
    var (b1, calls) := CompleteCalls(b, entries);
    CompleteCallsProgress(messages, b, es, entries);
    CompleteCallsSound(messages, b, es, entries);
    var (b2, text) := SyncFinal(b1, entries);
    SyncFinalProgress(messages, b1, entries);
    SyncFinalSound(messages, b1, es + calls, entries);
    ProgressCompose(b, b1, b2, calls, text);
  }

  lemma CompleteTurnProgress(messages: set<string>, b: State, es: seq<Event>, turn: Turn)
    requires Sound(messages, b, es) && TurnIds(messages, turn.entries) && !b.terminal
    ensures var (b', more) := CompleteTurn(b, turn); Progress(b, b', more)
  {
    var (b1, calls) := CompleteCalls(b, turn.entries);
    var (b2, text) := SyncFinal(b1, turn.entries);
    BeforeOutcome(messages, b, es, turn.entries);
    var (b3, end) := EndTurn(b2, turn);
    EndTurnProgress(b2, turn);
    ProgressCompose(b, b2, b3, calls + text, end);
  }

  lemma BreakProgress(b: State, input: Input)
    requires Valid(b) && Synced(b) && !b.terminal && !input.Notify?
    ensures var (b', more) := Consume(b, input); Progress(b, b', more)
  {
    FinishMessageProgress(b);
    match input
    case Break(message) =>
      FinishProgress(b, ResponseFailed, Some(Failure(ExecutionFailed, message)), b.reason);
    case Stop(reason) => FinishProgress(b, ResponseIncomplete, b.error, Some(reason));
  }

  lemma ConsumeProgress(messages: set<string>, b: State, es: seq<Event>, input: Input)
    requires Sound(messages, b, es) && InputIds(messages, input) && !b.terminal
    ensures var (b', more) := Consume(b, input); Progress(b, b', more)
  {
    if !input.Notify? {
      BreakProgress(b, input);
      return;
    }
    match input.n
    case ItemStarted(call) => StartCallProgress(messages, b, call);
    case MessageDelta(delta, itemId) =>
      if delta != "" { AppendTextProgress(messages, b, delta, itemId); }
    case MessageCompleted(text, itemId) => SyncCompletedProgress(messages, b, text, itemId);
    case CallCompleted(call) => CompleteCallProgress(messages, b, call);
    case TurnEnded(turn) => CompleteTurnProgress(messages, b, es, turn);
    case ErrorReported(willRetry, message) =>
      if !willRetry { BreakProgress(b, Break(message)); }
    case Ignored =>
  }

  // ---------------------------------------------------------------- over whole runs

  predicate Named(messages: set<string>, messageId: string, inputs: seq<Input>) {
    messageId != "" && messageId in messages && AllIds(messages, inputs)
  }

  /** The last input either comes after the end and does nothing, or makes progress. */
  lemma LastStep(messages: set<string>, messageId: string, inputs: seq<Input>)
    requires Named(messages, messageId, inputs) && inputs != []
    ensures var b, b' := StateAfter(messageId, inputs[..|inputs| - 1]), StateAfter(messageId, inputs);
            var more := LastEvents(messageId, inputs);
            Progress(b, b', more)
  {
    var n := |inputs| - 1;
    var b := StateAfter(messageId, inputs[..n]);
    if b.terminal {
      KeepsSelf(b);
    } else {
      DriveSound(messages, messageId, inputs[..n]);
      assert InputIds(messages, inputs[n]);
      ConsumeProgress(messages, b, Stream(messageId, inputs[..n]), inputs[n]);
    }
  }

  lemma KeepsSelf(b: State)
    ensures Keeps(b, b)
  {
    forall id | id in b.indexes ensures KeepsOne(b, b, id) {}
  }

  lemma {:induction false} RunKeeps(messages: set<string>, messageId: string, inputs: seq<Input>, n: nat)
    requires Named(messages, messageId, inputs) && n <= |inputs|
    ensures Keeps(StateAfter(messageId, inputs[..n]), StateAfter(messageId, inputs))
  {
    if |inputs| == n {
      assert inputs[..n] == inputs;
      KeepsSelf(StateAfter(messageId, inputs));
    } else {
      var last := |inputs| - 1;
      RunKeeps(messages, messageId, inputs[..last], n);
      assert inputs[..last][..n] == inputs[..n];
      LastStep(messages, messageId, inputs);
      ProgressCompose(StateAfter(messageId, inputs[..n]), StateAfter(messageId, inputs[..last]),
                      StateAfter(messageId, inputs), [], LastEvents(messageId, inputs));
    }
  }

  lemma {:induction false} RunShows(messages: set<string>, messageId: string, inputs: seq<Input>)
    requires Named(messages, messageId, inputs)
    ensures Shows(StateAfter(messageId, inputs), Stream(messageId, inputs))
  {
    if inputs != [] {
      var last := |inputs| - 1;
      RunShows(messages, messageId, inputs[..last]);
      LastStep(messages, messageId, inputs);
      StreamGrows(messageId, inputs);
      var b := StateAfter(messageId, inputs[..last]);
      KeepsSelf(b);
      ProgressCompose(b, b, StateAfter(messageId, inputs), Stream(messageId, inputs[..last]),
                      LastEvents(messageId, inputs));
    }
  }

  /**
    Positions: the position that an event claims for its item is where every later response
    lists that item, and an item reported done is finished and stands there unchanged.
   */
  lemma PositionsHold(messages: set<string>, messageId: string, inputs: seq<Input>, n: nat, e: Event)
    requires Named(messages, messageId, inputs) && n <= |inputs|
    requires e in Stream(messageId, inputs[..n]) && Subject(e).Some?
    ensures var response := Snapshot(StateAfter(messageId, inputs)).1;
            var (id, at) := Subject(e).value;
            && at < |response.output| && response.output[at].id == id
            && (e.ItemDone? ==> response.output[at] == e.item && FinalItem(e.item))
            && (forall k :: 0 <= k < |response.output| && response.output[k].id == id ==> k == at)
  {
    var b, b' := StateAfter(messageId, inputs[..n]), StateAfter(messageId, inputs);
    RunShows(messages, messageId, inputs[..n]);
    RunKeeps(messages, messageId, inputs, n);
    assert ShowsOne(b, e) && KeepsOne(b, b', Subject(e).value.0);
    DriveSound(messages, messageId, inputs);
    SnapshotIsCurrent(b');
  }

  /** Answering a retrieval brings the message item up to date; it already is. */
  lemma SnapshotIsCurrent(b: State)
    requires Valid(b) && Synced(b)
    ensures Snapshot(b).0 == b && Snapshot(b).1.output == b.items
  {
  }

  /** A response may be retrieved at any time without disturbing the stream. */
  lemma RetrievalChangesNothing(messages: set<string>, messageId: string, inputs: seq<Input>)
    requires Named(messages, messageId, inputs)
    ensures Snapshot(StateAfter(messageId, inputs)).0 == StateAfter(messageId, inputs)
  {
    DriveSound(messages, messageId, inputs);
    SnapshotIsCurrent(StateAfter(messageId, inputs));
  }

  // ---------------------------------------------------------------- a turn completes its calls

  lemma {:induction false} ListedCallsComplete(b: State, entries: seq<Entry>, k: nat)
    requires k < |entries| && entries[k].CallEntry? && entries[k].call.id != ""
    ensures entries[k].call.id in CompleteCalls(b, entries).0.completedCalls
  {
    var n := |entries| - 1;
    if k < n {
      ListedCallsComplete(b, entries[..n], k);
    }
  }

  /** The first `turn/completed` leaves every call that it lists with exactly one done. */
  lemma TurnCompletesItsCalls(messages: set<string>, messageId: string, inputs: seq<Input>, turn: Turn, k: nat)
    requires Named(messages, messageId, inputs) && TurnIds(messages, turn.entries)
    requires !StateAfter(messageId, inputs).terminal
    requires k < |turn.entries| && turn.entries[k].CallEntry? && turn.entries[k].call.id != ""
    ensures Dones(Stream(messageId, inputs + [Notify(TurnEnded(turn))]), turn.entries[k].call.id) == 1
  {
    var all := inputs + [Notify(TurnEnded(turn))];
    assert all[..|inputs|] == inputs;
    var id := turn.entries[k].call.id;
    var b, b' := StateAfter(messageId, inputs), StateAfter(messageId, all);
    ListedCallsComplete(b, turn.entries, k);
    TurnKeepsCompletedCalls(b, turn);
    DriveSound(messages, messageId, all);
    assert PhaseOf(Stream(messageId, all), id) == Expected(b', id);
    PhaseMeaning(Stream(messageId, all), id);
  }

  lemma TurnKeepsCompletedCalls(b: State, turn: Turn)
    requires !b.terminal
    ensures CompleteTurn(b, turn).0.completedCalls == CompleteCalls(b, turn.entries).0.completedCalls
  {
    var b1 := CompleteCalls(b, turn.entries).0;
    SyncFinalKeepsCalls(b1, turn.entries);
    EndTurnKeepsCalls(SyncFinal(b1, turn.entries).0, turn);
  }

  lemma SyncCompletedKeepsCalls(b: State, text: string, itemId: string)
    ensures SyncCompleted(b, text, itemId).0.completedCalls == b.completedCalls
  {
    if text == "" || text == b.text {
      SyncNothing(b, text, itemId);
    } else if Extends(text, b.text) {
      SyncMissing(b, text, itemId);
    } else {
      SyncReplaces(b, text, itemId);
    }
  }

  lemma SyncFinalKeepsCalls(b: State, entries: seq<Entry>)
    ensures SyncFinal(b, entries).0.completedCalls == b.completedCalls
  {
    var (text, itemId) := LastMessage(entries);
    SyncCompletedKeepsCalls(b, text, itemId);
  }

  lemma EndTurnKeepsCalls(b: State, turn: Turn)
    ensures EndTurn(b, turn).0.completedCalls == b.completedCalls
  {
  }
}
