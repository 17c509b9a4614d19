/**
  The objects that the driver mutates: the response record, and the builder that updates it and
  numbers the events.  Their methods follow the functions of `ResponseTranslation`.
 */
module ResponseBuilders {
  import opened Prelude
  import opened ResponseTranslation
  import opened ResponseInvariant

  /** An event as it is sent, with its sequence number. */
  datatype Sent = Sent(number: nat, event: Event)

  predicate Numbered(sent: seq<Sent>, from: nat, es: seq<Event>) {
    |sent| == |es| && forall k :: 0 <= k < |es| ==> sent[k] == Sent(from + k, es[k])
  }

  lemma NumberedConcat(a: seq<Sent>, b: seq<Sent>, from: nat, x: seq<Event>, y: seq<Event>)
    requires Numbered(a, from, x) && Numbered(b, from + |a|, y)
    ensures Numbered(a + b, from, x + y)
  {
  }

  /** A call took the builder to the state and emitted the events that `r` tells. */
  ghost predicate Emits(r: (State, seq<Event>), b: State, sent: seq<Sent>, from: nat, next: nat) {
    b == r.0 && Numbered(sent, from, r.1) && next == from + |sent|
  }

  class ResponseRecord {
    var messageId: string
    var messageIndex: Option<nat>
    var text: string
    var messageStarted: bool
    var messageCompleted: bool
    var items: seq<Item>
    var indexes: map<string, nat>
    var status: ResponseStatus
    var error: Option<Failure>
    var reason: Option<Reason>
    var usage: Option<string>

    constructor (id: string)
      requires id != ""
      ensures View() == Initial(id)
    {
      messageId, messageIndex, text, messageStarted, messageCompleted := id, None, "", false, false;
      items, indexes := [], map[];
      status, error, reason, usage := ResponseInProgress, None, None, None;
    }

    /** The record as part of a builder state whose other fields are initial. */
    function View(): State
      reads this
    {
      State(false, {}, messageId, messageIndex, text, messageStarted, messageCompleted,
            items, indexes, status, error, reason, usage)
    }

    method AddOutputItem(item: Item) returns (index: nat)
      requires Indexed(View()) && item.id != ""
      modifies this
      ensures (View(), index) == AddItem(old(View()), item)
    {
      if item.id in indexes {
        index := indexes[item.id];
        items := items[index := item];
      } else {
        index := |items|;
        indexes := indexes[item.id := index];
        items := items + [item];
      }
    }

    method MessageItem() returns (item: Item)
      ensures item == Message(View())
    {
      item := Item.MessageItem(messageId, messageCompleted, text);
    }

    method SyncMessageItem()
      requires Indexed(View()) && messageId != ""
      modifies this
      ensures View() == SyncMessage(old(View()))
    {
      if messageStarted {
        var item := MessageItem();
        var _ := AddOutputItem(item);
      }
    }

    method EnsureMessage(itemId: string) returns (index: nat)
      requires Valid(View())
      modifies this
      ensures View() == StartMessage(old(View()), itemId).0 && messageIndex == Some(index)
    {
      if messageStarted && messageIndex.Some? {
        return messageIndex.value;
      }
      if itemId != "" {
        messageId := itemId;
      }
      messageStarted := true;
      var item := MessageItem();
      index := AddOutputItem(item);
      messageIndex := Some(index);
    }

    method ToResponse() returns (response: Response)
      requires Indexed(View()) && messageId != ""
      modifies this
      ensures (View(), response) == Snapshot(old(View()))
    {
      SyncMessageItem();
      var shown := reason;
      if shown != Some(MaxOutputTokens) && shown != Some(ContentFilter) {
        shown := None;
      }
      response := Response(status, items, error, shown, usage);
    }
  }

  function AddText(b: State, delta: string): (State, seq<Event>)
    requires Valid(b)
  {
    var b' := SyncMessage(b.(text := b.text + delta));
    (b', [TextDelta(b'.messageId, MessageIndexOrZero(b'), delta)])
  }

  /** What a completed text does once the message has started. */
  function CatchUp(b: State, text: string): (State, seq<Event>)
    requires Valid(b)
  {
    if text == "" || text == b.text then (b, [])
    else if Extends(text, b.text) then AddText(b, text[|b.text|..])
    else (SyncMessage(b.(text := text)), [])
  }

  lemma SyncCompletedIsCatchUp(b: State, text: string, itemId: string)
    requires Valid(b)
    ensures var (b1, started) := StartMessage(b, itemId);
            var (b2, more) := CatchUp(b1, text);
            SyncCompleted(b, text, itemId) == (b2, started + more)
  {
    var started := StartMessage(b, itemId).1;
    assert started + [] == started;
  }

  function Reported(b: State, item: Item): seq<Event>
    requires Indexed(b) && item.id != "" && item.CallItem?
  {
    var k := AddItem(b, item).1;
    [if item.status == Failed then CallFailed(item.id, k) else CallSucceeded(item.id, k), ItemDone(k, item)]
  }

  class ResponsesEventBuilder {
    const record: ResponseRecord
    var sequence: nat
    var terminal: bool
    var completedCalls: set<string>

    constructor (record: ResponseRecord)
      ensures this.record == record && sequence == 0 && !terminal && completedCalls == {}
    {
      this.record, sequence, terminal, completedCalls := record, 0, false, {};
    }

    function Current(): State
      reads this, record
    {
      record.View().(terminal := terminal, completedCalls := completedCalls)
    }

    method Emit(event: Event) returns (sent: seq<Sent>)
      modifies this
      ensures sent == [Sent(old(sequence), event)] && sequence == old(sequence) + 1
      ensures terminal == old(terminal) && completedCalls == old(completedCalls)
    {
      sent := [Sent(sequence, event)];
      sequence := sequence + 1;
    }

    /** `record.add_output_item`, seen from the builder. */
    method Put(item: Item) returns (index: nat)
      requires Indexed(Current()) && item.id != ""
      modifies record
      ensures (Current(), index) == AddItem(old(Current()), item)
    {
      index := record.AddOutputItem(item);
    }

    /** `record.sync_message_item`, seen from the builder. */
    method Sync()
      requires Indexed(Current()) && record.messageId != ""
      modifies record
      ensures Current() == SyncMessage(old(Current()))
    {
      record.SyncMessageItem();
    }

    /** Text is added to the message, its item brought up to date and the delta sent. */
    method AddDelta(delta: string) returns (sent: seq<Sent>)
      requires Valid(Current())
      modifies this, record
      ensures Emits(AddText(old(Current()), delta), Current(), sent, old(sequence), sequence)
    {
      record.text := record.text + delta;
      Sync();
      var index := if record.messageIndex.Some? then record.messageIndex.value else 0;
      sent := Emit(TextDelta(record.messageId, index, delta));
    }

    /** `record.to_response`, seen from the builder. */
    method Respond() returns (response: Response)
      requires Indexed(Current()) && record.messageId != ""
      modifies record
      ensures (Current(), response) == Snapshot(old(Current()))
      ensures Indexed(Current()) && record.messageId == old(record.messageId)
    {
      SyncValid(Current());
      response := record.ToResponse();
    }

    method InitialEvents() returns (events: seq<Sent>)
      requires Valid(Current())
      modifies this, record
      ensures var (b1, first) := Snapshot(old(Current()));
              var (b2, second) := Snapshot(b1);
              Current() == b2 && Numbered(events, old(sequence), [Created(first), Started(second)])
      ensures sequence == old(sequence) + |events|
    {
      var response := Respond();
      events := Emit(Created(response));
      response := Respond();
      var more := Emit(Started(response));
      events := events + more;
    }

    method StartMcpCall(call: Source) returns (events: seq<Sent>)
      requires Valid(Current())
      modifies this, record
      ensures Emits(StartCall(old(Current()), call), Current(), events, old(sequence), sequence)
    {
      if call.id == "" || call.id in record.indexes {
        return [];
      }
      var item := CallItemOf(call, false);
      var index := Put(item);
      events := Emit(ItemAdded(index, item));
      var more := Emit(ArgumentsDone(call.id, index, item.arguments));
      events := events + more;
      more := Emit(CallRunning(call.id, index));
      events := events + more;
    }

    method CompleteMcpCall(call: Source) returns (events: seq<Sent>)
      requires Valid(Current())
      modifies this, record
      ensures Emits(CompleteCall(old(Current()), call), Current(), events, old(sequence), sequence)
    {
      if call.id == "" || call.id in completedCalls {
        return [];
      }
      events := [];
      StartCallValid(Current(), call);
      if call.id !in record.indexes {
        events := StartMcpCall(call);
      }
      ghost var (b1, started) := StartCall(old(Current()), call);
      assert Current() == b1 && Numbered(events, old(sequence), started);
      var end := ReportMcpCall(CallItemOf(call, true));
      completedCalls := completedCalls + {call.id};
      NumberedConcat(events, end, old(sequence), started, Reported(b1, CallItemOf(call, true)));
      events := events + end;
    }

    /** The record takes the finished item, and two events tell its outcome and its end. */
    method ReportMcpCall(item: Item) returns (events: seq<Sent>)
      requires Valid(Current()) && item.id != "" && item.CallItem?
      modifies this, record
      ensures Current() == AddItem(old(Current()), item).0
      ensures Numbered(events, old(sequence), Reported(old(Current()), item))
      ensures sequence == old(sequence) + |events|
    {
      var index := Put(item);
      events := Emit(if item.status == Failed then CallFailed(item.id, index) else CallSucceeded(item.id, index));
      var more := Emit(ItemDone(index, item));
      events := events + more;
    }

    method StartMessageItem(itemId: string) returns (events: seq<Sent>)
      requires Valid(Current())
      modifies this, record
      ensures Emits(StartMessage(old(Current()), itemId), Current(), events, old(sequence), sequence)
    {
      if record.messageStarted {
        return [];
      }
      assert Valid(record.View());
      var index := record.EnsureMessage(itemId);
      var item := record.MessageItem();
      events := Emit(ItemAdded(index, item));
      var more := Emit(PartAdded(record.messageId, index));
      events := events + more;
    }

    method AppendMessageText(delta: string, itemId: string) returns (events: seq<Sent>)
      requires Valid(Current())
      modifies this, record
      ensures Emits(AppendText(old(Current()), delta, itemId), Current(), events, old(sequence), sequence)
    {
      ghost var (b1, started) := StartMessage(Current(), itemId);
      StartMessageValid(Current(), itemId);
      events := StartMessageItem(itemId);
      var more := AddDelta(delta);
      NumberedConcat(events, more, old(sequence), started, AddText(b1, delta).1);
      events := events + more;
    }

    /** Brings the streamed text up to a completed one, or replaces it. */
    method CatchUpWith(text: string) returns (events: seq<Sent>)
      requires Valid(Current())
      modifies this, record
      ensures Emits(CatchUp(old(Current()), text), Current(), events, old(sequence), sequence)
    {
      events := [];
      if text != "" && text != record.text {
        if Extends(text, record.text) {
          events := AddDelta(text[|record.text|..]);
        } else {
          record.text := text;
          Sync();
        }
      }
    }

    method SyncCompletedMessage(text: string, itemId: string) returns (events: seq<Sent>)
      requires Valid(Current())
      modifies this, record
      ensures Emits(SyncCompleted(old(Current()), text, itemId), Current(), events, old(sequence), sequence)
    {
      SyncCompletedIsCatchUp(Current(), text, itemId);
      StartMessageValid(Current(), itemId);
      ghost var (b1, started) := StartMessage(Current(), itemId);
      events := StartMessageItem(itemId);
      var more := CatchUpWith(text);
      NumberedConcat(events, more, old(sequence), started, CatchUp(b1, text).1);
      events := events + more;
    }

    method FinishMessageItem() returns (events: seq<Sent>)
      requires Valid(Current())
      modifies this, record
      ensures Emits(FinishMessage(old(Current())), Current(), events, old(sequence), sequence)
    {
      if !record.messageStarted || record.messageCompleted {
        return [];
      }
      record.messageCompleted := true;
      Sync();
      var index := if record.messageIndex.Some? then record.messageIndex.value else 0;
      events := Emit(TextDone(record.messageId, index, record.text));
      var more := Emit(PartDone(record.messageId, index, record.text));
      events := events + more;
      var item := record.MessageItem();
      more := Emit(ItemDone(index, item));
      events := events + more;
    }

    /** Marks the builder terminal and emits the final response. */
    method Close() returns (events: seq<Sent>)
      requires Indexed(Current()) && record.messageId != ""
      modifies this, record
      ensures var (b, response) := Snapshot(old(Current()).(terminal := true));
              Current() == b && events == [Sent(old(sequence), Finished(response))]
      ensures sequence == old(sequence) + 1
    {
      terminal := true;
      var response := Respond();
      events := Emit(Finished(response));
    }

    method SetStatus(status: ResponseStatus, error: Option<Failure>, reason: Option<Reason>)
      modifies record
      ensures Current() == old(Current()).(status := status, error := error, reason := reason)
    {
      record.status, record.error, record.reason := status, error, reason;
    }

    /** Finishes the message, sets the outcome and closes the stream. */
    method FinishWith(status: ResponseStatus, error: Option<Failure>, reason: Option<Reason>)
      returns (events: seq<Sent>)
      requires Valid(Current())
      modifies this, record
      ensures Emits(Finish(old(Current()), status, error, reason), Current(), events, old(sequence), sequence)
    {
      ghost var done := FinishMessage(Current()).1;
      events := FinishMessageItem();
      SetStatus(status, error, reason);
      ghost var response := Snapshot(Current().(terminal := true)).1;
      var last := Close();
      NumberedConcat(events, last, old(sequence), done, [Finished(response)]);
      events := events + last;
    }

    method FailWith(message: string) returns (events: seq<Sent>)
      requires Valid(Current())
      modifies this, record
      ensures Emits(Fail(old(Current()), message), Current(), events, old(sequence), sequence)
    {
      if terminal {
        return [];
      }
      events := FinishWith(ResponseFailed, Some(Failure(ExecutionFailed, message)), record.reason);
    }

    method StopWith(reason: Reason) returns (events: seq<Sent>)
      requires Valid(Current())
      modifies this, record
      ensures Emits(Incomplete(old(Current()), reason), Current(), events, old(sequence), sequence)
    {
      if terminal {
        return [];
      }
      events := FinishWith(ResponseIncomplete, record.error, Some(reason));
    }

    /** Completes the calls that a turn lists, in order. */
    method CompleteListedCalls(entries: seq<Entry>) returns (events: seq<Sent>)
      requires Valid(Current())
      modifies this, record
      ensures Emits(CompleteCalls(old(Current()), entries), Current(), events, old(sequence), sequence)
    {
      events := [];
      ghost var b, from := Current(), sequence;
      for k := 0 to |entries|
        invariant Emits(CompleteCalls(b, entries[..k]), Current(), events, from, sequence)
      {
        assert entries[..k + 1][..k] == entries[..k];
        if entries[k].CallEntry? {
          ghost var before := CompleteCalls(b, entries[..k]);
          CompleteCallsValid(b, entries[..k]);
          var more := CompleteMcpCall(entries[k].call);
          NumberedConcat(events, more, from, before.1, CompleteCall(before.0, entries[k].call).1);
          events := events + more;
        }
      }
      assert entries[..|entries|] == entries;
    }

    /** Sets the outcome that a turn's status calls for. */
    method SetOutcome(turn: Turn)
      modifies record
      ensures Current() == old(Current()).(
                usage := turn.usage, status := TurnOutcome(turn.status),
                reason := if turn.status == TurnInterrupted then Some(Cancelled) else old(record.reason),
                error := if turn.status == TurnOther then Some(Failure(TurnFailed, turn.error))
                         else old(record.error))
    {
      record.usage := turn.usage;
      match turn.status {
        case TurnCompleted =>
          record.status := ResponseCompleted;
        case TurnInterrupted =>
          record.status := ResponseIncomplete;
          record.reason := Some(Cancelled);
        case TurnOther =>
          record.status := ResponseFailed;
          record.error := Some(Failure(TurnFailed, turn.error));
      }
    }

    method EndTurnWith(turn: Turn) returns (events: seq<Sent>)
      requires Valid(Current())
      modifies this, record
      ensures Emits(EndTurn(old(Current()), turn), Current(), events, old(sequence), sequence)
    {
      ghost var done := FinishMessage(Current()).1;
      events := FinishMessageItem();
      SetOutcome(turn);
      ghost var response := Snapshot(Current().(terminal := true)).1;
      var last := Close();
      NumberedConcat(events, last, old(sequence), done, [Finished(response)]);
      events := events + last;
    }

    method CompleteTurnWith(turn: Turn) returns (events: seq<Sent>)
      requires Valid(Current())
      modifies this, record
      ensures Emits(CompleteTurn(old(Current()), turn), Current(), events, old(sequence), sequence)
    {
      if terminal {
        return [];
      }
      ghost var b := Current();
      ghost var (b1, calls) := CompleteCalls(b, turn.entries);
      events := CompleteListedCalls(turn.entries);
      var text, itemId := FindLastMessage(turn.entries);
      ghost var (b2, synced) := SyncFinal(b1, turn.entries);
      CompleteCallsValid(b, turn.entries);
      SyncFinalValid(b1, turn.entries);
      var more := [];
      if text != "" {
        more := SyncCompletedMessage(text, itemId);
      }
      NumberedConcat(events, more, old(sequence), calls, synced);
      events := events + more;
      more := EndTurnWith(turn);
      NumberedConcat(events, more, old(sequence), calls + synced, EndTurn(b2, turn).1);
      events := events + more;
    }

    method ConsumeNotification(n: Notification) returns (events: seq<Sent>)
      requires Valid(Current())
      modifies this, record
      ensures Emits(Consume(old(Current()), Notify(n)), Current(), events, old(sequence), sequence)
    {
      events := [];
      match n {
        case ItemStarted(call) => events := StartMcpCall(call);
        case MessageDelta(delta, itemId) =>
          if delta != "" {
            events := AppendMessageText(delta, itemId);
          }
        case MessageCompleted(text, itemId) => events := SyncCompletedMessage(text, itemId);
        case CallCompleted(call) => events := CompleteMcpCall(call);
        case TurnEnded(turn) => events := CompleteTurnWith(turn);
        case ErrorReported(willRetry, message) =>
          if !willRetry {
            events := FailWith(message);
          }
        case Ignored =>
      }
    }

    method ConsumeInput(input: Input) returns (events: seq<Sent>)
      requires Valid(Current())
      modifies this, record
      ensures Emits(Consume(old(Current()), input), Current(), events, old(sequence), sequence)
    {
      match input {
        case Break(message) => events := FailWith(message);
        case Stop(reason) => events := StopWith(reason);
        case Notify(n) => events := ConsumeNotification(n);
      }
    }

    /** The driver's loop: inputs are consumed until the builder is terminal. */
    method DriveInputs(inputs: seq<Input>) returns (sent: seq<Sent>)
      requires Valid(Current())
      modifies this, record
      ensures Emits(Drive(old(Current()), inputs), Current(), sent, old(sequence), sequence)
    {
      ghost var b, from := Current(), sequence;
      sent := [];
      var k := 0;
      while k < |inputs| && !terminal
        invariant 0 <= k <= |inputs|
        invariant Emits(Drive(b, inputs[..k]), Current(), sent, from, sequence)
      {
        assert inputs[..k + 1][..k] == inputs[..k];
        ghost var before := Drive(b, inputs[..k]);
        DriveValid(b, inputs[..k]);
        var events := ConsumeInput(inputs[k]);
        NumberedConcat(sent, events, from, before.1, Consume(before.0, inputs[k]).1);
        sent := sent + events;
        k := k + 1;
      }
      DriveStops(b, inputs, k);
    }
  }

  /** Walks the entries backwards to the first agent message. */
  method FindLastMessage(entries: seq<Entry>) returns (text: string, itemId: string)
    ensures (text, itemId) == LastMessage(entries)
  {
    var k := |entries|;
    assert entries[..k] == entries;
    while k > 0
      invariant 0 <= k <= |entries|
      invariant LastMessage(entries) == LastMessage(entries[..k])
    {
      k := k - 1;
      assert entries[..k + 1][..k] == entries[..k];
      if entries[k].MessageEntry? {
        return entries[k].text, entries[k].itemId;
      }
    }
    return "", "";
  }

  /** Everything that a fresh builder sends for these inputs, numbered from 0. */
  method DriveAll(messageId: string, inputs: seq<Input>) returns (builder: ResponsesEventBuilder, sent: seq<Sent>)
    requires messageId != ""
    ensures Numbered(sent, 0, Stream(messageId, inputs))
    ensures builder.Current() == StateAfter(messageId, inputs)
  {
    var record := new ResponseRecord(messageId);
    builder := new ResponsesEventBuilder(record);
    sent := builder.InitialEvents();
    assert builder.Current() == Initial(messageId);
    var more := builder.DriveInputs(inputs);
    NumberedConcat(sent, more, 0, InitialEvents(messageId), Drive(Initial(messageId), inputs).1);
    sent := sent + more;
  }

  /** Inputs after the end of the stream are not read. */
  lemma {:induction false} DriveStops(b: State, inputs: seq<Input>, k: nat)
    requires Valid(b) && k <= |inputs|
    requires k == |inputs| || Drive(b, inputs[..k]).0.terminal
    ensures Drive(b, inputs) == Drive(b, inputs[..k])
  {
    if k < |inputs| {
      var n := |inputs| - 1;
      assert inputs[..n][..k] == inputs[..k];
      DriveStops(b, inputs[..n], k);
    } else {
      assert inputs[..k] == inputs;
    }
  }
}
