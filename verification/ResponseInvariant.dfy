/** Every operation of the builder keeps items and index map inverse to each other. */
module ResponseInvariant {
  import opened Prelude
  import opened ResponseTranslation

  lemma ReplaceIndexed(b: State, item: Item)
    requires Indexed(b) && item.id in b.indexes
    ensures var b' := b.(items := b.items[b.indexes[item.id] := item]); Indexed(b')
  {
  }

  lemma AppendIndexed(b: State, item: Item)
    requires Indexed(b) && item.id !in b.indexes
    ensures Indexed(b.(items := b.items + [item], indexes := b.indexes[item.id := |b.items|]))
  {
  }

  lemma AddItemValid(b: State, item: Item)
    requires Indexed(b)
    ensures var (b', k) := AddItem(b, item);
            && Indexed(b') && item.id in b'.indexes && b'.indexes[item.id] == k
            && k < |b'.items| && b'.items[k] == item
  {
    if item.id in b.indexes {
      ReplaceIndexed(b, item);
    } else {
      AppendIndexed(b, item);
    }
  }

  lemma SyncValid(b: State)
    requires Indexed(b)
    ensures Indexed(SyncMessage(b)) && (Valid(b) ==> Valid(SyncMessage(b)))
  {
    AddItemValid(b, Message(b));
  }

  lemma StartCallValid(b: State, call: Source)
    requires Valid(b)
    ensures Valid(StartCall(b, call).0)
  {
    AddItemValid(b, CallItemOf(call, false));
  }

  lemma CompleteCallValid(b: State, call: Source)
    requires Valid(b)
    ensures Valid(CompleteCall(b, call).0)
  {
    StartCallValid(b, call);
    AddItemValid(StartCall(b, call).0, CallItemOf(call, true));
  }

  lemma StartMessageValid(b: State, itemId: string)
    requires Valid(b)
    ensures Valid(StartMessage(b, itemId).0)
  {
    var b1 := b.(messageId := if itemId == "" then b.messageId else itemId, messageStarted := true);
    AddItemValid(b1, Message(b1));
  }

  lemma AppendTextValid(b: State, delta: string, itemId: string)
    requires Valid(b)
    ensures Valid(AppendText(b, delta, itemId).0)
  {
    var b1 := StartMessage(b, itemId).0;
    StartMessageValid(b, itemId);
    SyncValid(b1.(text := b1.text + delta));
  }

  lemma SyncCompletedValid(b: State, text: string, itemId: string)
    requires Valid(b)
    ensures Valid(SyncCompleted(b, text, itemId).0)
  {
    StartMessageValid(b, itemId);
    if text == "" || text == b.text {
      SyncNothing(b, text, itemId);
    } else if Extends(text, b.text) {
      SyncMissing(b, text, itemId);
      AppendTextValid(b, text[|b.text|..], itemId);
    } else {
      SyncReplaces(b, text, itemId);
      SyncValid(StartMessage(b, itemId).0.(text := text));
    }
  }

  /** Finishing the message is followed by the end of the stream. */
  lemma FinishMessageValid(b: State)
    requires Valid(b)
    ensures Valid(FinishMessage(b).0.(terminal := true))
  {
    SyncValid(b.(messageCompleted := true));
  }

  lemma FinishValid(b: State, status: ResponseStatus, error: Option<Failure>, reason: Option<Reason>)
    requires Valid(b)
    ensures Valid(Finish(b, status, error, reason).0)
  {
    FinishMessageValid(b);
    SyncValid(FinishMessage(b).0.(status := status, error := error, reason := reason, terminal := true));
  }

  lemma EndTurnValid(b: State, turn: Turn)
    requires Valid(b)
    ensures Valid(EndTurn(b, turn).0)
  {
    FinishMessageValid(b);
    var b1 := FinishMessage(b).0;
    SyncValid(b1.(usage := turn.usage, status := TurnOutcome(turn.status), terminal := true,
                  reason := if turn.status == TurnInterrupted then Some(Cancelled) else b1.reason,
                  error := if turn.status == TurnOther then Some(Failure(TurnFailed, turn.error))
                           else b1.error));
  }

  lemma {:induction false} CompleteCallsValid(b: State, entries: seq<Entry>)
    requires Valid(b)
    ensures Valid(CompleteCalls(b, entries).0)
  {
    if entries != [] {
      var n := |entries| - 1;
      CompleteCallsValid(b, entries[..n]);
      if entries[n].CallEntry? {
        CompleteCallValid(CompleteCalls(b, entries[..n]).0, entries[n].call);
      }
    }
  }

  lemma SyncFinalValid(b: State, entries: seq<Entry>)
    requires Valid(b)
    ensures Valid(SyncFinal(b, entries).0)
  {
    var (text, itemId) := LastMessage(entries);
    SyncCompletedValid(b, text, itemId);
  }

  lemma CompleteTurnValid(b: State, turn: Turn)
    requires Valid(b)
    ensures Valid(CompleteTurn(b, turn).0)
  {
    var b1 := CompleteCalls(b, turn.entries).0;
    CompleteCallsValid(b, turn.entries);
    SyncFinalValid(b1, turn.entries);
    EndTurnValid(SyncFinal(b1, turn.entries).0, turn);
  }

  lemma StopValid(b: State, input: Input)
    requires Valid(b) && !input.Notify?
    ensures Valid(Consume(b, input).0)
  {
    match input
    case Break(message) =>
      FinishValid(b, ResponseFailed, Some(Failure(ExecutionFailed, message)), b.reason);
    case Stop(reason) => FinishValid(b, ResponseIncomplete, b.error, Some(reason));
  }

  lemma ConsumeValid(b: State, input: Input)
    requires Valid(b)
    ensures Valid(Consume(b, input).0)
  {
    if !input.Notify? {
      StopValid(b, input);
      return;
    }
    match input.n
    case ItemStarted(call) => StartCallValid(b, call);
    case CallCompleted(call) => CompleteCallValid(b, call);
    case MessageDelta(delta, itemId) => AppendTextValid(b, delta, itemId);
    case MessageCompleted(text, itemId) => SyncCompletedValid(b, text, itemId);
    case TurnEnded(turn) => CompleteTurnValid(b, turn);
    case ErrorReported(_, message) => StopValid(b, Break(message));
    case Ignored =>
  }

  lemma {:induction false} DriveValid(b: State, inputs: seq<Input>)
    requires Valid(b)
    ensures Valid(Drive(b, inputs).0)
  {
    if inputs != [] {
      var n := |inputs| - 1;
      DriveValid(b, inputs[..n]);
      ConsumeValid(Drive(b, inputs[..n]).0, inputs[n]);
    }
  }

  /** So the record is in order at every moment of every run. */
  lemma RunValid(messageId: string, inputs: seq<Input>)
    requires messageId != ""
    ensures Valid(StateAfter(messageId, inputs))
  {
    DriveValid(Initial(messageId), inputs);
  }
}
