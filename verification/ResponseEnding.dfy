/**
  How a translated stream ends: one terminal event, the last, that shows the final record.  This
  holds for any notifications at all, also for items that share an id.
 */
module ResponseEnding {
  import opened Prelude
  import opened ResponseTranslation

  // ---------------------------------------------------------------- steps that do not end

  /** No terminal event. */
  predicate Quiet(es: seq<Event>) {
    forall k :: 0 <= k < |es| ==> !es[k].Finished?
  }

  predicate SameOutcome(b: State, b': State) {
    && b'.terminal == b.terminal && b'.status == b.status && b'.error == b.error
    && b'.reason == b.reason && b'.usage == b.usage
  }

  /** A step that leaves the outcome open. */
  predicate Open(b: State, r: (State, seq<Event>)) {
    SameOutcome(b, r.0) && Quiet(r.1)
  }

  lemma AddItemOpen(b: State, item: Item)
    ensures SameOutcome(b, AddItem(b, item).0)
  {
  }

  lemma SyncOpen(b: State)
    ensures SameOutcome(b, SyncMessage(b))
  {
  }

  lemma StartCallOpen(b: State, call: Source)
    ensures Open(b, StartCall(b, call))
  {
  }

  lemma CompleteCallOpen(b: State, call: Source)
    ensures Open(b, CompleteCall(b, call))
  {
    StartCallOpen(b, call);
    AddItemOpen(StartCall(b, call).0, CallItemOf(call, true));
  }

  lemma StartMessageOpen(b: State, itemId: string)
    ensures Open(b, StartMessage(b, itemId))
  {
  }

  lemma AppendTextOpen(b: State, delta: string, itemId: string)
    ensures Open(b, AppendText(b, delta, itemId))
  {
    var b1 := StartMessage(b, itemId).0;
    StartMessageOpen(b, itemId);
    SyncOpen(b1.(text := b1.text + delta));
  }

  lemma SyncCompletedOpen(b: State, text: string, itemId: string)
    ensures Open(b, SyncCompleted(b, text, itemId))
  {
    StartMessageOpen(b, itemId);
    if text == "" || text == b.text {
      SyncNothing(b, text, itemId);
    } else if Extends(text, b.text) {
      SyncMissing(b, text, itemId);
      AppendTextOpen(b, text[|b.text|..], itemId);
    } else {
      SyncReplaces(b, text, itemId);
      SyncOpen(StartMessage(b, itemId).0.(text := text));
    }
  }

  lemma {:induction false} CompleteCallsOpen(b: State, entries: seq<Entry>)
    ensures Open(b, CompleteCalls(b, entries))
  {
    if entries != [] {
      var n := |entries| - 1;
      CompleteCallsOpen(b, entries[..n]);
      if entries[n].CallEntry? {
        CompleteCallOpen(CompleteCalls(b, entries[..n]).0, entries[n].call);
      }
    }
  }

  lemma SyncFinalOpen(b: State, entries: seq<Entry>)
    ensures Open(b, SyncFinal(b, entries))
  {
    var (text, itemId) := LastMessage(entries);
    if text != "" {
      SyncCompletedOpen(b, text, itemId);
    }
  }

  lemma FinishMessageOpen(b: State)
    ensures Open(b, FinishMessage(b))
  {
  }

  // ---------------------------------------------------------------- steps that end

  /** The terminal event shows the record as it stands, and a snapshot changes nothing then. */
  ghost predicate Closed(b: State, e: Event)
  {
    && b.terminal && b.status != ResponseInProgress && Snapshot(b).0 == b
    && e == Finished(Snapshot(b).1) && e.response.output == b.items
  }

  lemma SyncTwice(b: State)
    ensures SyncMessage(SyncMessage(b)) == SyncMessage(b)
  {
    var b1 := SyncMessage(b);
    if b.messageStarted {
      var k := b1.indexes[b.messageId];
      assert b1.items[k := Message(b)] == b1.items;
    }
  }

  lemma SnapshotCloses(b: State)
    requires b.terminal && b.status != ResponseInProgress
    ensures Closed(Snapshot(b).0, Finished(Snapshot(b).1))
  {
    SyncTwice(b);
    SyncOpen(b);
  }

  /** Nothing but the last event of a closing step is terminal; other steps have none. */
  ghost predicate Closes(b: State, more: seq<Event>)
  {
    if b.terminal then more != [] && Quiet(more[..|more| - 1]) && Closed(b, more[|more| - 1])
    else Quiet(more)
  }

  lemma ClosesAfter(b: State, first: seq<Event>, more: seq<Event>)
    requires Quiet(first) && Closes(b, more)
    ensures Closes(b, first + more)
  {
    if b.terminal {
      assert (first + more)[..|first + more| - 1] == first + more[..|more| - 1];
    }
  }

  lemma FinishCloses(b: State, status: ResponseStatus, error: Option<Failure>, reason: Option<Reason>)
    requires status != ResponseInProgress
    ensures var (b', more) := Finish(b, status, error, reason);
            && Closes(b', more)
            && b'.terminal && b'.status == status && b'.error == error && b'.reason == reason
  {
    var (b1, done) := FinishMessage(b);
    FinishMessageOpen(b);
    var b2 := b1.(status := status, error := error, reason := reason, terminal := true);
    SnapshotCloses(b2);
    SyncOpen(b2);
    ClosesAfter(Snapshot(b2).0, done, [Finished(Snapshot(b2).1)]);
  }

  /** The outcome fields after a turn has ended. */
  predicate TurnDecides(b: State, b': State, turn: Turn) {
    && b'.terminal && b'.usage == turn.usage && b'.status == TurnOutcome(turn.status)
    && b'.reason == (if turn.status == TurnInterrupted then Some(Cancelled) else b.reason)
    && b'.error == if turn.status == TurnOther then Some(Failure(TurnFailed, turn.error)) else b.error
  }

  lemma EndTurnCloses(b: State, turn: Turn)
    ensures var (b', more) := EndTurn(b, turn); Closes(b', more) && TurnDecides(b, b', turn)
  {
    var (b1, done) := FinishMessage(b);
    FinishMessageOpen(b);
    var b2 := b1.(usage := turn.usage, status := TurnOutcome(turn.status), terminal := true,
                  reason := if turn.status == TurnInterrupted then Some(Cancelled) else b1.reason,
                  error := if turn.status == TurnOther then Some(Failure(TurnFailed, turn.error))
                           else b1.error);
    SnapshotCloses(b2);
    SyncOpen(b2);
    ClosesAfter(Snapshot(b2).0, done, [Finished(Snapshot(b2).1)]);
  }

  /** A turn's status decides the outcome, whatever its calls and texts did before. */
  lemma TurnSetsOutcome(b: State, turn: Turn)
    requires !b.terminal
    ensures var (b', more) := CompleteTurn(b, turn); Closes(b', more) && TurnDecides(b, b', turn)
  {
    var (b1, calls) := CompleteCalls(b, turn.entries);
    CompleteCallsOpen(b, turn.entries);
    var (b2, text) := SyncFinal(b1, turn.entries);
    SyncFinalOpen(b1, turn.entries);
    var (b3, end) := EndTurn(b2, turn);
    EndTurnCloses(b2, turn);
    ClosesAfter(b3, calls + text, end);
  }

  // ---------------------------------------------------------------- every input

  /** Until the end the record shows no outcome; afterwards it has an error exactly if it failed. */
  predicate OutcomeInv(b: State) {
    if b.terminal then
      && b.status != ResponseInProgress && (b.error.Some? <==> b.status == ResponseFailed)
      && (b.reason.Some? <==> b.status == ResponseIncomplete)
    else b.status == ResponseInProgress && b.error == None && b.reason == None && b.usage == None
  }

  lemma StopCloses(b: State, input: Input)
    requires !b.terminal && OutcomeInv(b) && !input.Notify?
    ensures var (b', more) := Consume(b, input); Closes(b', more) && OutcomeInv(b')
  {
    match input
    case Break(message) =>
      FinishCloses(b, ResponseFailed, Some(Failure(ExecutionFailed, message)), b.reason);
    case Stop(reason) => FinishCloses(b, ResponseIncomplete, b.error, Some(reason));
  }

  lemma OpenCloses(b: State, r: (State, seq<Event>))
    requires Open(b, r) && !b.terminal && OutcomeInv(b)
    ensures Closes(r.0, r.1) && OutcomeInv(r.0)
  {
  }

  lemma CallCloses(b: State, n: Notification)
    requires !b.terminal && OutcomeInv(b) && (n.ItemStarted? || n.CallCompleted?)
    ensures var (b', more) := Consume(b, Notify(n)); Closes(b', more) && OutcomeInv(b')
  {
    if n.ItemStarted? {
      StartCallOpen(b, n.call);
    } else {
      CompleteCallOpen(b, n.call);
    }
    OpenCloses(b, Consume(b, Notify(n)));
  }

  lemma TextCloses(b: State, n: Notification)
    requires !b.terminal && OutcomeInv(b) && (n.MessageDelta? || n.MessageCompleted?)
    ensures var (b', more) := Consume(b, Notify(n)); Closes(b', more) && OutcomeInv(b')
  {
    if n.MessageDelta? {
      AppendTextOpen(b, n.delta, n.itemId);
    } else {
      SyncCompletedOpen(b, n.text, n.itemId);
    }
    OpenCloses(b, Consume(b, Notify(n)));
  }

  lemma DecidedOutcome(b: State, b': State, turn: Turn)
    requires TurnDecides(b, b', turn) && !b.terminal && OutcomeInv(b)
    ensures OutcomeInv(b')
  {
  }

  lemma TurnCloses(b: State, turn: Turn)
    requires !b.terminal && OutcomeInv(b)
    ensures var (b', more) := Consume(b, Notify(TurnEnded(turn))); Closes(b', more) && OutcomeInv(b')
  {
    TurnSetsOutcome(b, turn);
    DecidedOutcome(b, CompleteTurn(b, turn).0, turn);
  }

  lemma OtherCloses(b: State, n: Notification)
    requires !b.terminal && OutcomeInv(b) && (n.ErrorReported? || n.Ignored?)
    ensures var (b', more) := Consume(b, Notify(n)); Closes(b', more) && OutcomeInv(b')
  {
    OpenCloses(b, (b, []));
    if n.ErrorReported? {
      StopCloses(b, Break(n.message));
    }
  }

  lemma ConsumeCloses(b: State, input: Input)
    requires !b.terminal && OutcomeInv(b)
    ensures var (b', more) := Consume(b, input); Closes(b', more) && OutcomeInv(b')
  {
    if !input.Notify? {
      StopCloses(b, input);
    } else if input.n.ItemStarted? || input.n.CallCompleted? {
      CallCloses(b, input.n);
    } else if input.n.MessageDelta? || input.n.MessageCompleted? {
      TextCloses(b, input.n);
    } else if input.n.TurnEnded? {
      TurnCloses(b, input.n.turn);
    } else {
      OtherCloses(b, input.n);
    }
  }

  // ---------------------------------------------------------------- whole runs

  /** A stream that has ended does so with its only terminal event, which is the final response. */
  lemma {:induction false} OneTerminalEvent(messageId: string, inputs: seq<Input>)
    requires messageId != ""
    ensures Closes(StateAfter(messageId, inputs), Stream(messageId, inputs))
    ensures OutcomeInv(StateAfter(messageId, inputs))
  {
    if inputs != [] {
      var last := |inputs| - 1;
      OneTerminalEvent(messageId, inputs[..last]);
      var b := StateAfter(messageId, inputs[..last]);
      StreamGrows(messageId, inputs);
      StateGrows(messageId, inputs);
      var before, more := Stream(messageId, inputs[..last]), LastEvents(messageId, inputs);
      if b.terminal {
        assert before + more == before;
      } else {
        ConsumeCloses(b, inputs[last]);
        ClosesAfter(StateAfter(messageId, inputs), before, more);
      }
    }
  }

  /** The terminal event has an error exactly if the response failed; before it nothing shows. */
  lemma OutcomeIsReported(messageId: string, inputs: seq<Input>)
    requires messageId != ""
    ensures var b, es := StateAfter(messageId, inputs), Stream(messageId, inputs);
            if b.terminal then
              && es != [] && es[|es| - 1].Finished? && Quiet(es[..|es| - 1])
              && var r := es[|es| - 1].response;
              && r == Snapshot(b).1
              && r.status in {ResponseCompleted, ResponseIncomplete, ResponseFailed}
              && (r.error.Some? <==> r.status == ResponseFailed)
              && (r.reason.Some? ==> r.status == ResponseIncomplete)
            else
              && Quiet(es)
              && var r := Snapshot(b).1;
              r.status == ResponseInProgress && r.error == None && r.reason == None && r.usage == None
  {
    OneTerminalEvent(messageId, inputs);
    SyncOpen(StateAfter(messageId, inputs));
  }

  // ---------------------------------------------------------------- what ends a stream, and how it is told

  /** The inputs that end a stream. */
  predicate Ends(input: Input) {
    match input
    case Break(_) => true
    case Stop(_) => true
    case Notify(n) => n.TurnEnded? || (n.ErrorReported? && !n.willRetry)
  }

  lemma ConsumeEnds(b: State, input: Input)
    requires !b.terminal
    ensures Consume(b, input).0.terminal <==> Ends(input)
  {
    if !input.Notify? {
      FinishCloses(b, if input.Break? then ResponseFailed else ResponseIncomplete,
                   if input.Break? then Some(Failure(ExecutionFailed, input.message)) else b.error,
                   if input.Break? then b.reason else Some(input.reason));
    } else if input.n.ErrorReported? {
      FinishCloses(b, ResponseFailed, Some(Failure(ExecutionFailed, input.n.message)), b.reason);
    } else if input.n.TurnEnded? {
      TurnSetsOutcome(b, input.n.turn);
    } else if input.n.ItemStarted? {
      StartCallOpen(b, input.n.call);
    } else if input.n.CallCompleted? {
      CompleteCallOpen(b, input.n.call);
    } else if input.n.MessageDelta? {
      AppendTextOpen(b, input.n.delta, input.n.itemId);
    } else if input.n.MessageCompleted? {
      SyncCompletedOpen(b, input.n.text, input.n.itemId);
    }
  }

  /** A stream has ended exactly when an input that ends it has arrived. */
  lemma {:induction false} EndsExactly(messageId: string, inputs: seq<Input>)
    requires messageId != ""
    ensures StateAfter(messageId, inputs).terminal <==> exists k :: 0 <= k < |inputs| && Ends(inputs[k])
  {
    if inputs != [] {
      var n := |inputs| - 1;
      EndsExactly(messageId, inputs[..n]);
      StateGrows(messageId, inputs);
      var b := StateAfter(messageId, inputs[..n]);
      if b.terminal {
        var k :| 0 <= k < |inputs[..n]| && Ends(inputs[..n][k]);
        assert Ends(inputs[k]);
      } else {
        ConsumeEnds(b, inputs[n]);
        assert forall k :: 0 <= k < n ==> inputs[..n][k] == inputs[k];
      }
    }
  }

  /** What the terminal event says about the input that ended the stream. */
  predicate Announces(r: Response, input: Input) {
    match input
    case Break(message) =>
      r.status == ResponseFailed && r.error == Some(Failure(ExecutionFailed, message))
      && r.reason == None && r.usage == None
    case Stop(reason) =>
      r.status == ResponseIncomplete && r.error == None && r.usage == None
      && r.reason == if reason.MaxOutputTokens? || reason.ContentFilter? then Some(reason) else None
    case Notify(n) =>
      match n
      case TurnEnded(turn) =>
        && r.usage == turn.usage && r.reason == None
        && (turn.status.TurnCompleted? ==> r.status == ResponseCompleted && r.error == None)
        && (turn.status.TurnInterrupted? ==> r.status == ResponseIncomplete && r.error == None)
        && (turn.status.TurnOther? ==> r.status == ResponseFailed && r.error == Some(Failure(TurnFailed, turn.error)))
      case ErrorReported(_, message) =>
        r.status == ResponseFailed && r.error == Some(Failure(ExecutionFailed, message))
        && r.reason == None && r.usage == None
      case _ => false
  }

  lemma FinishKeepsUsage(b: State, status: ResponseStatus, error: Option<Failure>, reason: Option<Reason>)
    ensures Finish(b, status, error, reason).0.usage == b.usage
  {
    FinishMessageOpen(b);
    SyncOpen(FinishMessage(b).0.(status := status, error := error, reason := reason, terminal := true));
  }

  lemma StopIsAnnounced(b: State, input: Input)
    requires !b.terminal && OutcomeInv(b) && !input.Notify?
    ensures var b' := Consume(b, input).0;
            b'.terminal && Announces(Snapshot(b').1, input)
  {
    match input {
      case Break(message) =>
        FinishCloses(b, ResponseFailed, Some(Failure(ExecutionFailed, message)), b.reason);
        FinishKeepsUsage(b, ResponseFailed, Some(Failure(ExecutionFailed, message)), b.reason);
      case Stop(reason) =>
        FinishCloses(b, ResponseIncomplete, b.error, Some(reason));
        FinishKeepsUsage(b, ResponseIncomplete, b.error, Some(reason));
    }
    SyncOpen(Consume(b, input).0);
  }

  lemma NotifyIsAnnounced(b: State, n: Notification)
    requires !b.terminal && OutcomeInv(b) && Ends(Notify(n))
    ensures var b' := Consume(b, Notify(n)).0;
            b'.terminal && Announces(Snapshot(b').1, Notify(n))
  {
    if n.ErrorReported? {
      StopIsAnnounced(b, Break(n.message));
    } else {
      TurnSetsOutcome(b, n.turn);
      SyncOpen(CompleteTurn(b, n.turn).0);
    }
  }

  /** The last event of a stream tells why it ended: with which status, error, reason and usage. */
  lemma EndIsAnnounced(messageId: string, inputs: seq<Input>, input: Input)
    requires messageId != "" && !StateAfter(messageId, inputs).terminal && Ends(input)
    ensures var es := Stream(messageId, inputs + [input]);
            es != [] && es[|es| - 1].Finished? && Announces(es[|es| - 1].response, input)
  {
    var all := inputs + [input];
    var b := StateAfter(messageId, inputs);
    OneTerminalEvent(messageId, inputs);
    OneTerminalEvent(messageId, all);
    ConsumeNext(messageId, inputs, input);
    if input.Notify? {
      NotifyIsAnnounced(b, input.n);
    } else {
      StopIsAnnounced(b, input);
    }
  }

  // ---------------------------------------------------------------- how a stream begins

  /** Neither of the two events that begin a stream. */
  predicate Later(es: seq<Event>) {
    forall k :: 0 <= k < |es| ==> !es[k].Created? && !es[k].Started?
  }

  lemma StartCallLater(b: State, call: Source)
    ensures Later(StartCall(b, call).1)
  {
  }

  lemma CompleteCallLater(b: State, call: Source)
    ensures Later(CompleteCall(b, call).1)
  {
    StartCallLater(b, call);
  }

  lemma StartMessageLater(b: State, itemId: string)
    ensures Later(StartMessage(b, itemId).1)
  {
  }

  lemma AppendTextLater(b: State, delta: string, itemId: string)
    ensures Later(AppendText(b, delta, itemId).1)
  {
    StartMessageLater(b, itemId);
  }

  lemma SyncCompletedLater(b: State, text: string, itemId: string)
    ensures Later(SyncCompleted(b, text, itemId).1)
  {
    StartMessageLater(b, itemId);
    if text == "" || text == b.text {
      SyncNothing(b, text, itemId);
    } else if Extends(text, b.text) {
      SyncMissing(b, text, itemId);
      AppendTextLater(b, text[|b.text|..], itemId);
    } else {
      SyncReplaces(b, text, itemId);
    }
  }

  lemma {:induction false} CompleteCallsLater(b: State, entries: seq<Entry>)
    ensures Later(CompleteCalls(b, entries).1)
  {
    if entries != [] {
      var n := |entries| - 1;
      CompleteCallsLater(b, entries[..n]);
      if entries[n].CallEntry? {
        CompleteCallLater(CompleteCalls(b, entries[..n]).0, entries[n].call);
      }
    }
  }

  lemma FinishLater(b: State, status: ResponseStatus, error: Option<Failure>, reason: Option<Reason>)
    ensures Later(Finish(b, status, error, reason).1)
  {
  }

  lemma EndTurnLater(b: State, turn: Turn)
    ensures Later(EndTurn(b, turn).1)
  {
  }

  lemma TurnLater(b: State, turn: Turn)
    ensures Later(CompleteTurn(b, turn).1)
  {
    var b1 := CompleteCalls(b, turn.entries).0;
    CompleteCallsLater(b, turn.entries);
    var (text, itemId) := LastMessage(turn.entries);
    SyncCompletedLater(b1, text, itemId);
    EndTurnLater(SyncFinal(b1, turn.entries).0, turn);
  }

  lemma ConsumeLater(b: State, input: Input)
    ensures Later(Consume(b, input).1)
  {
    match input {
      case Break(message) => FinishLater(b, ResponseFailed, Some(Failure(ExecutionFailed, message)), b.reason);
      case Stop(reason) => FinishLater(b, ResponseIncomplete, b.error, Some(reason));
      case Notify(n) =>
        match n {
          case ItemStarted(call) => StartCallLater(b, call);
          case CallCompleted(call) => CompleteCallLater(b, call);
          case MessageDelta(delta, itemId) => AppendTextLater(b, delta, itemId);
          case MessageCompleted(text, itemId) => SyncCompletedLater(b, text, itemId);
          case TurnEnded(turn) => TurnLater(b, turn);
          case ErrorReported(_, message) =>
            FinishLater(b, ResponseFailed, Some(Failure(ExecutionFailed, message)), b.reason);
          case Ignored =>
        }
    }
  }

  /** A stream begins with the empty response, created and then in progress, and never does so again. */
  lemma {:induction false} StreamBegins(messageId: string, inputs: seq<Input>)
    requires messageId != ""
    ensures var es, empty := Stream(messageId, inputs), Response(ResponseInProgress, [], None, None, None);
            && |es| >= 2 && es[0] == Created(empty) && es[1] == Started(empty)
            && Later(es[2..])
  {
    if inputs != [] {
      var n := |inputs| - 1;
      StreamBegins(messageId, inputs[..n]);
      StreamGrows(messageId, inputs);
      var before, more := Stream(messageId, inputs[..n]), LastEvents(messageId, inputs);
      var b := StateAfter(messageId, inputs[..n]);
      ConsumeLater(b, inputs[n]);
      assert (before + more)[2..] == before[2..] + more;
    }
  }
}
