/**
  The translation of Codex notifications into Responses events, as functions from the state of
  the builder and its response record to the next state and the events emitted.
 */
module ResponseTranslation {
  import opened Prelude

  // ---------------------------------------------------------------- notifications

  /** An `mcpToolCall` item; an id that is missing or not a string is "". */
  datatype Source = Source(
    id: string,
    server: string,
    tool: string,
    arguments: string,
    failure: Option<string>,    // the error content, when error, isError or status say "failed"
    result: Option<string>)

  datatype TurnStatus = TurnCompleted | TurnInterrupted | TurnOther

  datatype Entry = CallEntry(call: Source) | MessageEntry(text: string, itemId: string) | OtherEntry

  datatype Turn = Turn(status: TurnStatus, entries: seq<Entry>, usage: Option<string>, error: string)

  datatype Notification =
    | ItemStarted(call: Source)
    | MessageDelta(delta: string, itemId: string)
    | MessageCompleted(text: string, itemId: string)
    | CallCompleted(call: Source)
    | TurnEnded(turn: Turn)
    | ErrorReported(willRetry: bool, message: string)
    | Ignored

  // ---------------------------------------------------------------- record and events

  datatype CallStatus = InProgress | Completed | Failed

  datatype Item =
    | CallItem(id: string, status: CallStatus, server: Option<string>, tool: Option<string>, arguments: string,
               output: Option<string>, error: Option<string>)
    | MessageItem(id: string, completed: bool, text: string)

  datatype ResponseStatus = ResponseInProgress | ResponseCompleted | ResponseIncomplete | ResponseFailed

  /** `codex_execution_failed` and `codex_turn_failed`. */
  datatype FailureCode = ExecutionFailed | TurnFailed

  datatype Failure = Failure(code: FailureCode, message: string)

  /** Why a response is incomplete: `max_output_tokens`, `content_filter`, `cancelled` or another text. */
  datatype Reason = MaxOutputTokens | ContentFilter | Cancelled | OtherReason(text: string)

  datatype Response = Response(status: ResponseStatus, output: seq<Item>, error: Option<Failure>,
                               reason: Option<Reason>, usage: Option<string>)

  datatype Event =
    | Created(response: Response)
    | Started(response: Response)
    | ItemAdded(index: nat, item: Item)
    | ItemDone(index: nat, item: Item)
    | ArgumentsDone(itemId: string, index: nat, arguments: string)
    | CallRunning(itemId: string, index: nat)
    | CallSucceeded(itemId: string, index: nat)
    | CallFailed(itemId: string, index: nat)
    | PartAdded(itemId: string, index: nat)
    | TextDelta(itemId: string, index: nat, delta: string)
    | TextDone(itemId: string, index: nat, text: string)
    | PartDone(itemId: string, index: nat, text: string)
    | Finished(response: Response)       // response.completed, .incomplete or .failed

  /** The builder together with the fields of its record that it changes. */
  datatype State = State(
    terminal: bool,
    completedCalls: set<string>,
    messageId: string,
    messageIndex: Option<nat>,
    text: string,
    messageStarted: bool,
    messageCompleted: bool,
    items: seq<Item>,
    indexes: map<string, nat>,
    status: ResponseStatus,
    error: Option<Failure>,
    reason: Option<Reason>,
    usage: Option<string>)

  function Initial(messageId: string): State {
    State(false, {}, messageId, None, "", false, false, [], map[], ResponseInProgress, None, None, None)
  }

  /** `output_items` and `output_indexes` are inverse to each other. */
  predicate Indexed(b: State) {
    && (forall id :: id in b.indexes ==> b.indexes[id] < |b.items| && b.items[b.indexes[id]].id == id)
    && (forall k :: 0 <= k < |b.items| ==> b.items[k].id in b.indexes && b.indexes[b.items[k].id] == k)
  }

  predicate MessageFits(b: State) {
    && b.messageId != ""
    && (b.messageStarted ==>
          && b.messageIndex.Some? && b.messageId in b.indexes
          && b.indexes[b.messageId] == b.messageIndex.value)
    && (b.messageCompleted ==> b.messageStarted && b.terminal)
  }

  predicate Valid(b: State) {
    Indexed(b) && MessageFits(b)
  }

  // ---------------------------------------------------------------- record operations

  /**
    An item whose id is known replaces it in place; otherwise it is appended.  A known position
    always lies within the items (`Indexed`); the test for it makes the function total.
   */
  function AddItem(b: State, item: Item): (State, nat) {
    if item.id in b.indexes && b.indexes[item.id] < |b.items| then
      (b.(items := b.items[b.indexes[item.id] := item]), b.indexes[item.id])
    else
      (b.(items := b.items + [item], indexes := b.indexes[item.id := |b.items|]), |b.items|)
  }

  function Message(b: State): Item {
    MessageItem(b.messageId, b.messageCompleted, b.text)
  }

  function SyncMessage(b: State): State {
    if b.messageStarted then AddItem(b, Message(b)).0 else b
  }

  /** Only the reasons that the Responses API knows are shown. */
  function VisibleReason(reason: Option<Reason>): Option<Reason> {
    if reason == Some(MaxOutputTokens) || reason == Some(ContentFilter) then reason else None
  }

  /** Taking a snapshot first brings the message item up to date. */
  function Snapshot(b: State): (State, Response) {
    var b' := SyncMessage(b);
    (b', Response(b'.status, b'.items, b'.error, VisibleReason(b'.reason), b'.usage))
  }

  function MessageIndexOrZero(b: State): nat {
    if b.messageIndex.Some? then b.messageIndex.value else 0
  }

  /** A missing name is shown as `unknown`. */
  function Known(s: string): Option<string> {
    if s == "" then None else Some(s)
  }

  function CallItemOf(call: Source, completed: bool): Item {
    CallItem(call.id,
             if call.failure.Some? then Failed else if completed then Completed else InProgress,
             Known(call.server), Known(call.tool), call.arguments,
             if completed then call.result else None, call.failure)
  }

  // ---------------------------------------------------------------- builder operations

  function StartCall(b: State, call: Source): (State, seq<Event>) {
    if call.id == "" || call.id in b.indexes then (b, [])
    else
      var item := CallItemOf(call, false);
      var (b1, k) := AddItem(b, item);
      (b1, [ItemAdded(k, item), ArgumentsDone(call.id, k, item.arguments), CallRunning(call.id, k)])
  }

  function CompleteCall(b: State, call: Source): (State, seq<Event>) {
    if call.id == "" || call.id in b.completedCalls then (b, [])
    else
      var (b1, started) := StartCall(b, call);
      var item := CallItemOf(call, true);
      var (b2, k) := AddItem(b1, item);
      var outcome := if item.status == Failed then CallFailed(call.id, k) else CallSucceeded(call.id, k);
      (b2.(completedCalls := b2.completedCalls + {call.id}), started + [outcome, ItemDone(k, item)])
  }

  function StartMessage(b: State, itemId: string): (State, seq<Event>) {
    if b.messageStarted then (b, [])
    else
      var b1 := b.(messageId := if itemId == "" then b.messageId else itemId, messageStarted := true);
      var (b2, k) := AddItem(b1, Message(b1));
      (b2.(messageIndex := Some(k)), [ItemAdded(k, Message(b1)), PartAdded(b1.messageId, k)])
  }

  function AppendText(b: State, delta: string, itemId: string): (State, seq<Event>) {
    var (b1, started) := StartMessage(b, itemId);
    var b2 := SyncMessage(b1.(text := b1.text + delta));
    (b2, started + [TextDelta(b2.messageId, MessageIndexOrZero(b2), delta)])
  }

  predicate Extends(text: string, streamed: string) {
    |streamed| <= |text| && text[..|streamed|] == streamed
  }

  /** A completed text that extends the streamed one is caught up; any other one replaces it. */
  function SyncCompleted(b: State, text: string, itemId: string): (State, seq<Event>) {
    var (b1, started) := StartMessage(b, itemId);
    if text == "" || text == b1.text then (b1, started)
    else if Extends(text, b1.text) then
      var missing := text[|b1.text|..];
      var b2 := SyncMessage(b1.(text := b1.text + missing));
      (b2, started + [TextDelta(b2.messageId, MessageIndexOrZero(b2), missing)])
    else
      (SyncMessage(b1.(text := text)), started)
  }

  function FinishMessage(b: State): (State, seq<Event>) {
    if !b.messageStarted || b.messageCompleted then (b, [])
    else
      var b1 := SyncMessage(b.(messageCompleted := true));
      var k := MessageIndexOrZero(b1);
      (b1, [TextDone(b1.messageId, k, b1.text), PartDone(b1.messageId, k, b1.text), ItemDone(k, Message(b1))])
  }

  /** Every way to the end: finish the message, set the outcome, emit the terminal event. */
  function Finish(b: State, status: ResponseStatus, error: Option<Failure>, reason: Option<Reason>)
    : (State, seq<Event>)
  {
    var (b1, done) := FinishMessage(b);
    var (b2, response) := Snapshot(b1.(status := status, error := error, reason := reason, terminal := true));
    (b2, done + [Finished(response)])
  }

  function Fail(b: State, message: string): (State, seq<Event>) {
    if b.terminal then (b, [])
    else Finish(b, ResponseFailed, Some(Failure(ExecutionFailed, message)), b.reason)
  }

  function Incomplete(b: State, reason: Reason): (State, seq<Event>) {
    if b.terminal then (b, []) else Finish(b, ResponseIncomplete, b.error, Some(reason))
  }

  /** Calls listed by the turn are completed in order. */
  function CompleteCalls(b: State, entries: seq<Entry>): (State, seq<Event>) {
    if entries == [] then (b, [])
    else
      var n := |entries| - 1;
      var (b1, es) := CompleteCalls(b, entries[..n]);
      if entries[n].CallEntry? then
        var (b2, more) := CompleteCall(b1, entries[n].call);
        (b2, es + more)
      else (b1, es)
  }

  /** The last agent message of the turn decides, even when its text is empty. */
  function LastMessage(entries: seq<Entry>): (string, string) {
    if entries == [] then ("", "")
    else
      var last := entries[|entries| - 1];
      if last.MessageEntry? then (last.text, last.itemId) else LastMessage(entries[..|entries| - 1])
  }

  function SyncFinal(b: State, entries: seq<Entry>): (State, seq<Event>) {
    var (text, itemId) := LastMessage(entries);
    if text == "" then (b, []) else SyncCompleted(b, text, itemId)
  }

  function TurnOutcome(status: TurnStatus): ResponseStatus {
    match status
    case TurnCompleted => ResponseCompleted
    case TurnInterrupted => ResponseIncomplete
    case TurnOther => ResponseFailed
  }

  /** The record after `_complete_turn` has set its outcome fields. */
  function EndTurn(b: State, turn: Turn): (State, seq<Event>) {
    var (b1, done) := FinishMessage(b);
    var b2 := b1.(usage := turn.usage, status := TurnOutcome(turn.status), terminal := true,
                  reason := if turn.status == TurnInterrupted then Some(Cancelled) else b1.reason,
                  error := if turn.status == TurnOther then Some(Failure(TurnFailed, turn.error))
                           else b1.error);
    var (b3, response) := Snapshot(b2);
    (b3, done + [Finished(response)])
  }

  function CompleteTurn(b: State, turn: Turn): (State, seq<Event>) {
    if b.terminal then (b, [])
    else
      var (b1, calls) := CompleteCalls(b, turn.entries);
      var (b2, text) := SyncFinal(b1, turn.entries);
      var (b3, end) := EndTurn(b2, turn);
      (b3, calls + text + end)
  }

  /** What the driver feeds the builder: a notification, or the reason for which it stops. */
  datatype Input = Notify(n: Notification) | Break(message: string) | Stop(reason: Reason)

  function Consume(b: State, input: Input): (State, seq<Event>) {
    match input
    case Break(message) => Fail(b, message)
    case Stop(reason) => Incomplete(b, reason)
    case Notify(n) =>
      match n
      case ItemStarted(call) => StartCall(b, call)
      case MessageDelta(delta, itemId) => if delta == "" then (b, []) else AppendText(b, delta, itemId)
      case MessageCompleted(text, itemId) => SyncCompleted(b, text, itemId)
      case CallCompleted(call) => CompleteCall(b, call)
      case TurnEnded(turn) => CompleteTurn(b, turn)
      case ErrorReported(willRetry, message) => if willRetry then (b, []) else Fail(b, message)
      case Ignored => (b, [])
  }

  /** The driver stops at the first terminal state; the later inputs are never read. */
  function Drive(b: State, inputs: seq<Input>): (State, seq<Event>) {
    if inputs == [] then (b, [])
    else
      var n := |inputs| - 1;
      var (b1, es) := Drive(b, inputs[..n]);
      if b1.terminal then (b1, es)
      else
        var (b2, more) := Consume(b1, inputs[n]);
        (b2, es + more)
  }

  function InitialEvents(messageId: string): seq<Event>
    requires messageId != ""
  {
    var (b1, first) := Snapshot(Initial(messageId));
    [Created(first), Started(Snapshot(b1).1)]
  }

  /** The whole stream of one execution. */
  function Stream(messageId: string, inputs: seq<Input>): seq<Event>
    requires messageId != ""
  {
    InitialEvents(messageId) + Drive(Initial(messageId), inputs).1
  }

  function StateAfter(messageId: string, inputs: seq<Input>): State
    requires messageId != ""
  {
    Drive(Initial(messageId), inputs).0
  }

  /** What the last input of a run contributes. */
  function LastEvents(messageId: string, inputs: seq<Input>): seq<Event>
    requires messageId != "" && inputs != []
  {
    var b := StateAfter(messageId, inputs[..|inputs| - 1]);
    if b.terminal then [] else Consume(b, inputs[|inputs| - 1]).1
  }

  // ---------------------------------------------------------------- the branches of a completed text

  lemma StartKeepsText(b: State, itemId: string)
    ensures StartMessage(b, itemId).0.text == b.text
  {
  }

  lemma SyncNothing(b: State, text: string, itemId: string)
    requires text == "" || text == b.text
    ensures SyncCompleted(b, text, itemId) == StartMessage(b, itemId)
  {
    StartKeepsText(b, itemId);
  }

  /** Catching up is appending what is missing. */
  lemma SyncMissing(b: State, text: string, itemId: string)
    requires text != "" && text != b.text && Extends(text, b.text)
    ensures SyncCompleted(b, text, itemId) == AppendText(b, text[|b.text|..], itemId)
  {
    StartKeepsText(b, itemId);
  }

  lemma SyncReplaces(b: State, text: string, itemId: string)
    requires text != "" && !Extends(text, b.text)
    ensures var (b1, started) := StartMessage(b, itemId);
            SyncCompleted(b, text, itemId) == (SyncMessage(b1.(text := text)), started)
  {
    StartKeepsText(b, itemId);
  }

  // ---------------------------------------------------------------- runs grow by one input

  lemma DriveGrows(b: State, inputs: seq<Input>, input: Input)
    requires !Drive(b, inputs).0.terminal
    ensures Drive(b, inputs + [input]).0 == Consume(Drive(b, inputs).0, input).0
    ensures Drive(b, inputs + [input]).1 == Drive(b, inputs).1 + Consume(Drive(b, inputs).0, input).1
  {
    assert (inputs + [input])[..|inputs|] == inputs;
  }

  /** One more input, read by a builder that has not ended. */
  lemma ConsumeNext(messageId: string, inputs: seq<Input>, input: Input)
    requires messageId != "" && !StateAfter(messageId, inputs).terminal
    ensures var (b, more) := Consume(StateAfter(messageId, inputs), input);
            && StateAfter(messageId, inputs + [input]) == b
            && Stream(messageId, inputs + [input]) == Stream(messageId, inputs) + more
  {
    var initial := InitialEvents(messageId);
    var es, more := Drive(Initial(messageId), inputs).1, Consume(StateAfter(messageId, inputs), input).1;
    DriveGrows(Initial(messageId), inputs, input);
    assert initial + (es + more) == initial + es + more;
  }

  lemma StateGrows(messageId: string, inputs: seq<Input>)
    requires messageId != "" && inputs != []
    ensures var b := StateAfter(messageId, inputs[..|inputs| - 1]);
            StateAfter(messageId, inputs) == if b.terminal then b else Consume(b, inputs[|inputs| - 1]).0
  {
  }

  lemma StreamGrows(messageId: string, inputs: seq<Input>)
    requires messageId != "" && inputs != []
    ensures Stream(messageId, inputs) == Stream(messageId, inputs[..|inputs| - 1]) + LastEvents(messageId, inputs)
    ensures StateAfter(messageId, inputs[..|inputs| - 1]).terminal ==>
              StateAfter(messageId, inputs) == StateAfter(messageId, inputs[..|inputs| - 1])
  {
    var n := |inputs| - 1;
    if StateAfter(messageId, inputs[..n]).terminal {
      assert Stream(messageId, inputs[..n]) + [] == Stream(messageId, inputs[..n]);
    } else {
      assert inputs == inputs[..n] + [inputs[n]];
      ConsumeNext(messageId, inputs[..n], inputs[n]);
    }
  }
}
