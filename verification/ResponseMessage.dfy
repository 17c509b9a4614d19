/**
  The story of the message: its id, its text and the events about it, told from the notifications
  alone.
 */
module ResponseMessage {
  import opened Prelude
  import opened ResponseTranslation
  import opened ResponseInvariant
  import opened ResponseEnding
  import opened ResponseText

  // ---------------------------------------------------------------- what the notifications say

  /** The last agent message that a turn lists is its last message entry. */
  lemma {:induction false} LastMessageMeans(entries: seq<Entry>) returns (k: nat)
    ensures if k < |entries| then
              && entries[k].MessageEntry? && LastMessage(entries) == (entries[k].text, entries[k].itemId)
              && forall j :: k < j < |entries| ==> !entries[j].MessageEntry?
            else LastMessage(entries) == ("", "") && forall j :: 0 <= j < |entries| ==> !entries[j].MessageEntry?
  {
    if entries == [] {
      k := 0;
    } else if entries[|entries| - 1].MessageEntry? {
      k := |entries| - 1;
    } else {
      var front := entries[..|entries| - 1];
      k := LastMessageMeans(front);
      if k >= |front| {
        k := |entries|;
      }
    }
  }

  /** Deltas are said in addition; a completed text that is not empty is said instead. */
  function Said(before: string, input: Input): string {
    if input.Notify? && input.n.MessageDelta? then before + input.n.delta
    else if CompletedText(input) != "" then CompletedText(input)
    else before
  }

  /** What has been said before the stream ended. */
  function SpokenText(messageId: string, inputs: seq<Input>): string
    requires messageId != ""
  {
    if inputs == [] then ""
    else
      var n := |inputs| - 1;
      var before := SpokenText(messageId, inputs[..n]);
      if StateAfter(messageId, inputs[..n]).terminal then before else Said(before, inputs[n])
  }

  /** The id under which an input speaks, if it speaks: a delta that says something, or a completed text. */
  function SpeaksAs(input: Input): Option<string> {
    if !input.Notify? then None
    else match input.n
      case MessageDelta(delta, itemId) => if delta == "" then None else Some(itemId)
      case MessageCompleted(_, itemId) => Some(itemId)
      case TurnEnded(turn) =>
        if LastMessage(turn.entries).0 == "" then None else Some(LastMessage(turn.entries).1)
      case _ => None
  }

  /** The id of the first input that speaks. */
  function Speaker(messageId: string, inputs: seq<Input>): Option<string>
    requires messageId != ""
  {
    if inputs == [] then None
    else
      var n := |inputs| - 1;
      var earlier := Speaker(messageId, inputs[..n]);
      if earlier.Some? || StateAfter(messageId, inputs[..n]).terminal then earlier else SpeaksAs(inputs[n])
  }

  // ---------------------------------------------------------------- the text

  lemma DeltaSaid(b: State, delta: string, itemId: string)
    ensures Consume(b, Notify(MessageDelta(delta, itemId))).0.text == b.text + delta
  {
    AppendTextText(b, delta, itemId);
    assert b.text + "" == b.text;
  }

  lemma ConsumeSaid(b: State, input: Input)
    requires !b.terminal
    ensures Consume(b, input).0.text == Said(b.text, input)
  {
    if !input.Notify? {
      StopText(b, input);
    } else {
      match input.n {
        case ItemStarted(call) => StartCallText(b, call);
        case CallCompleted(call) => CallText(b, call);
        case MessageDelta(delta, itemId) => DeltaSaid(b, delta, itemId);
        case MessageCompleted(text, itemId) => SyncCompletedText(b, text, itemId);
        case TurnEnded(turn) => TurnText(b, turn);
        case ErrorReported(_, message) => StopText(b, Break(message));
        case Ignored =>
      }
    }
  }

  /** The text of the record is what has been said. */
  lemma {:induction false} TextIsSpoken(messageId: string, inputs: seq<Input>)
    requires messageId != ""
    ensures StateAfter(messageId, inputs).text == SpokenText(messageId, inputs)
  {
    if inputs != [] {
      var n := |inputs| - 1;
      TextIsSpoken(messageId, inputs[..n]);
      StateGrows(messageId, inputs);
      if !StateAfter(messageId, inputs[..n]).terminal {
        ConsumeSaid(StateAfter(messageId, inputs[..n]), inputs[n]);
      }
    }
  }

  // ---------------------------------------------------------------- the events of the message

  predicate AboutMessage(e: Event) {
    match e
    case ItemAdded(_, item) => item.MessageItem?
    case ItemDone(_, item) => item.MessageItem?
    case PartAdded(_, _) => true
    case TextDelta(_, _, _) => true
    case TextDone(_, _, _) => true
    case PartDone(_, _, _) => true
    case _ => false
  }

  function PickMessage(e: Event): seq<Event> {
    if AboutMessage(e) then [e] else []
  }

  function MessageEvents(es: seq<Event>): seq<Event> {
    if es == [] then [] else MessageEvents(es[..|es| - 1]) + PickMessage(es[|es| - 1])
  }

  lemma MessageNext(es: seq<Event>, e: Event)
    ensures MessageEvents(es + [e]) == MessageEvents(es) + PickMessage(e)
  {
    assert (es + [e])[..|es|] == es;
  }

  lemma {:induction false} MessageConcat(a: seq<Event>, b: seq<Event>)
    ensures MessageEvents(a + b) == MessageEvents(a) + MessageEvents(b)
  {
    if b == [] {
      assert a + b == a;
    } else {
      var front, last := b[..|b| - 1], b[|b| - 1];
      assert b == front + [last] && a + b == (a + front) + [last];
      MessageConcat(a, front);
      MessageNext(front, last);
      MessageNext(a + front, last);
    }
  }

  /** A message that is being told: added, opened, and then nothing but deltas. */
  predicate Telling(es: seq<Event>, id: string, k: nat) {
    && |es| >= 2
    && es[0] == ItemAdded(k, MessageItem(id, false, "")) && es[1] == PartAdded(id, k)
    && forall j :: 2 <= j < |es| ==> es[j].TextDelta? && es[j].itemId == id && es[j].index == k
  }

  /** The three events that close a message, each with its whole text. */
  function Ending(id: string, k: nat, text: string): seq<Event> {
    [TextDone(id, k, text), PartDone(id, k, text), ItemDone(k, MessageItem(id, true, text))]
  }

  /** The events of the message are as they should be in this state. */
  predicate MessageTold(b: State, es: seq<Event>) {
    if !b.messageStarted then es == [] && b.text == "" && !b.messageCompleted
    else
      && b.messageIndex.Some?
      && if b.messageCompleted then
           && |es| >= 3 && Telling(es[..|es| - 3], b.messageId, b.messageIndex.value)
           && es[|es| - 3..] == Ending(b.messageId, b.messageIndex.value, b.text)
         else Telling(es, b.messageId, b.messageIndex.value)
  }

  predicate SameMessage(b: State, b': State) {
    && b'.messageStarted == b.messageStarted && b'.messageCompleted == b.messageCompleted
    && b'.messageId == b.messageId && b'.messageIndex == b.messageIndex && b'.text == b.text
  }

  /** A step that neither touches nor mentions the message. */
  predicate Besides(b: State, b': State, more: seq<Event>) {
    SameMessage(b, b') && MessageEvents(more) == []
  }

  lemma SyncBesides(b: State)
    ensures Besides(b, SyncMessage(b), [])
  {
  }

  lemma NoneOfThree(e: Event, f: Event, g: Event)
    requires !AboutMessage(e) && !AboutMessage(f) && !AboutMessage(g)
    ensures MessageEvents([e, f, g]) == []
  {
    assert [e, f, g] == [e, f] + [g] && [e, f] == [e] + [f] && [e] == [] + [e];
    MessageNext([], e);
    MessageNext([e], f);
    MessageNext([e, f], g);
  }

  lemma NoneOfTwo(e: Event, f: Event)
    requires !AboutMessage(e) && !AboutMessage(f)
    ensures MessageEvents([e, f]) == []
  {
    assert [e, f] == [e] + [f] && [e] == [] + [e];
    MessageNext([], e);
    MessageNext([e], f);
  }

  lemma StartCallBesides(b: State, call: Source)
    ensures var (b', more) := StartCall(b, call); Besides(b, b', more)
  {
    var more := StartCall(b, call).1;
    if more != [] {
      NoneOfThree(more[0], more[1], more[2]);
    }
  }

  lemma CompleteCallBesides(b: State, call: Source)
    ensures var (b', more) := CompleteCall(b, call); Besides(b, b', more)
  {
    var (b', more) := CompleteCall(b, call);
    if more != [] {
      var (b1, started) := StartCall(b, call);
      StartCallBesides(b, call);
      var n := |started|;
      NoneOfTwo(more[n], more[n + 1]);
      assert more == started + [more[n], more[n + 1]];
      MessageConcat(started, [more[n], more[n + 1]]);
    }
  }

  lemma {:induction false} CompleteCallsBesides(b: State, entries: seq<Entry>)
    ensures var (b', more) := CompleteCalls(b, entries); Besides(b, b', more)
  {
    if entries != [] {
      var n := |entries| - 1;
      CompleteCallsBesides(b, entries[..n]);
      var (b1, es) := CompleteCalls(b, entries[..n]);
      if entries[n].CallEntry? {
        CompleteCallBesides(b1, entries[n].call);
        MessageConcat(es, CompleteCall(b1, entries[n].call).1);
      }
    }
  }

  /** The id that a message takes when it starts. */
  function NameOf(b: State, itemId: string): string {
    if itemId == "" then b.messageId else itemId
  }

  lemma StartMessageTold(b: State, itemId: string, es: seq<Event>)
    requires MessageTold(b, es) && !b.messageCompleted
    ensures var (b', more) := StartMessage(b, itemId);
            && MessageTold(b', es + MessageEvents(more)) && b'.messageStarted && !b'.messageCompleted
            && b'.messageId == if b.messageStarted then b.messageId else NameOf(b, itemId)
  {
    var (b', more) := StartMessage(b, itemId);
    if more == [] {
      assert es + [] == es;
    } else {
      assert more == [more[0]] + [more[1]] && [more[0]] == [] + [more[0]];
      MessageNext([], more[0]);
      MessageNext([more[0]], more[1]);
      assert es + MessageEvents(more) == more;
    }
  }

  lemma DeltaTold(b: State, text: string, delta: string, es: seq<Event>)
    requires MessageTold(b, es) && b.messageStarted && !b.messageCompleted
    ensures var b' := SyncMessage(b.(text := text));
            && MessageTold(b', es)
            && MessageTold(b', es + MessageEvents([TextDelta(b'.messageId, MessageIndexOrZero(b'), delta)]))
            && b'.messageStarted && !b'.messageCompleted && b'.messageId == b.messageId
  {
    var b' := SyncMessage(b.(text := text));
    SyncBesides(b.(text := text));
    var e := TextDelta(b'.messageId, MessageIndexOrZero(b'), delta);
    assert [e] == [] + [e];
    MessageNext([], e);
  }

  /** The message is open afterwards, under the id of its first speaker. */
  predicate StillTold(b: State, itemId: string, b': State, more: seq<Event>, es: seq<Event>) {
    && MessageTold(b', es + MessageEvents(more)) && b'.messageStarted && !b'.messageCompleted
    && b'.messageId == if b.messageStarted then b.messageId else NameOf(b, itemId)
  }

  lemma MoreMessage(es: seq<Event>, a: seq<Event>, b: seq<Event>)
    ensures es + MessageEvents(a + b) == es + MessageEvents(a) + MessageEvents(b)
  {
    MessageConcat(a, b);
  }

  lemma AppendTextTold(b: State, delta: string, itemId: string, es: seq<Event>)
    requires MessageTold(b, es) && !b.messageCompleted
    ensures var (b', more) := AppendText(b, delta, itemId); StillTold(b, itemId, b', more, es)
  {
    var (b1, started) := StartMessage(b, itemId);
    StartMessageTold(b, itemId, es);
    DeltaTold(b1, b1.text + delta, delta, es + MessageEvents(started));
    var b2 := SyncMessage(b1.(text := b1.text + delta));
    MoreMessage(es, started, [TextDelta(b2.messageId, MessageIndexOrZero(b2), delta)]);
  }

  lemma SyncCompletedTold(b: State, text: string, itemId: string, es: seq<Event>)
    requires MessageTold(b, es) && !b.messageCompleted
    ensures var (b', more) := SyncCompleted(b, text, itemId); StillTold(b, itemId, b', more, es)
  {
    var (b1, started) := StartMessage(b, itemId);
    StartMessageTold(b, itemId, es);
    if text == "" || text == b.text {
      SyncNothing(b, text, itemId);
    } else if Extends(text, b.text) {
      SyncMissing(b, text, itemId);
      AppendTextTold(b, text[|b.text|..], itemId, es);
    } else {
      SyncReplaces(b, text, itemId);
      DeltaTold(b1, text, "", es + MessageEvents(started));
    }
  }

  lemma BesidesTold(b: State, b': State, more: seq<Event>, es: seq<Event>)
    requires MessageTold(b, es) && Besides(b, b', more)
    ensures MessageTold(b', es + MessageEvents(more))
  {
    assert es + [] == es;
  }

  lemma EndingEvents(id: string, k: nat, text: string)
    ensures MessageEvents(Ending(id, k, text)) == Ending(id, k, text)
  {
    var es := Ending(id, k, text);
    assert es == [es[0], es[1]] + [es[2]] && [es[0], es[1]] == [es[0]] + [es[1]] && [es[0]] == [] + [es[0]];
    MessageNext([], es[0]);
    MessageNext([es[0]], es[1]);
    MessageNext([es[0], es[1]], es[2]);
  }

  lemma FinishMessageTold(b: State, es: seq<Event>)
    requires MessageTold(b, es) && !b.messageCompleted
    ensures var (b', more) := FinishMessage(b);
            && MessageTold(b', es + MessageEvents(more)) && b'.messageCompleted == b.messageStarted
            && b'.messageStarted == b.messageStarted && b'.messageId == b.messageId
  {
    if b.messageStarted {
      SyncBesides(b.(messageCompleted := true));
      var k := b.messageIndex.value;
      EndingEvents(b.messageId, k, b.text);
      var all := es + Ending(b.messageId, k, b.text);
      assert all[..|all| - 3] == es && all[|all| - 3..] == Ending(b.messageId, k, b.text);
    } else {
      assert es + [] == es;
    }
  }

  lemma OutcomeBesides(b: State, b1: State)
    requires b1 == b.(terminal := b1.terminal, status := b1.status, error := b1.error,
                      reason := b1.reason, usage := b1.usage)
    ensures Besides(b, Snapshot(b1).0, [Finished(Snapshot(b1).1)])
  {
    SyncBesides(b1);
    var e := Finished(Snapshot(b1).1);
    assert [e] == [] + [e];
    MessageNext([], e);
  }

  lemma FinishTold(b: State, status: ResponseStatus, error: Option<Failure>, reason: Option<Reason>, es: seq<Event>)
    requires MessageTold(b, es) && !b.messageCompleted
    ensures var (b', more) := Finish(b, status, error, reason);
            && MessageTold(b', es + MessageEvents(more)) && b'.messageCompleted == b.messageStarted
            && b'.messageStarted == b.messageStarted && b'.messageId == b.messageId
  {
    var (b1, done) := FinishMessage(b);
    FinishMessageTold(b, es);
    var b2 := b1.(status := status, error := error, reason := reason, terminal := true);
    OutcomeBesides(b1, b2);
    var e := Finished(Snapshot(b2).1);
    BesidesTold(b1, Snapshot(b2).0, [e], es + MessageEvents(done));
    MoreMessage(es, done, [e]);
  }

  lemma EndTurnTold(b: State, turn: Turn, es: seq<Event>)
    requires MessageTold(b, es) && !b.messageCompleted
    ensures var (b', more) := EndTurn(b, turn);
            && MessageTold(b', es + MessageEvents(more)) && b'.messageCompleted == b.messageStarted
            && b'.messageStarted == b.messageStarted && b'.messageId == b.messageId
  {
    var (b1, done) := FinishMessage(b);
    FinishMessageTold(b, es);
    var b2 := b1.(usage := turn.usage, status := TurnOutcome(turn.status), terminal := true,
                  reason := if turn.status == TurnInterrupted then Some(Cancelled) else b1.reason,
                  error := if turn.status == TurnOther then Some(Failure(TurnFailed, turn.error))
                           else b1.error);
    OutcomeBesides(b1, b2);
    var e := Finished(Snapshot(b2).1);
    BesidesTold(b1, Snapshot(b2).0, [e], es + MessageEvents(done));
    MoreMessage(es, done, [e]);
  }

  /** After an input that speaks, or does not, the message is told and named accordingly. */
  predicate InputTold(b: State, speaker: Option<string>, ended: bool, b': State, more: seq<Event>, es: seq<Event>) {
    && MessageTold(b', es + MessageEvents(more)) && b'.messageCompleted == (ended && b'.messageStarted)
    && b'.messageStarted == (b.messageStarted || speaker.Some?)
    && b'.messageId == if b.messageStarted || speaker.None? then b.messageId else NameOf(b, speaker.value)
  }

  lemma SyncFinalTold(b: State, entries: seq<Entry>, es: seq<Event>)
    requires MessageTold(b, es) && !b.messageCompleted
    ensures var (b', more) := SyncFinal(b, entries);
            var (text, itemId) := LastMessage(entries);
            InputTold(b, if text == "" then None else Some(itemId), false, b', more, es)
  {
    var (text, itemId) := LastMessage(entries);
    if text == "" {
      assert es + [] == es;
    } else {
      SyncCompletedTold(b, text, itemId, es);
    }
  }

  lemma TurnTold(b: State, turn: Turn, es: seq<Event>)
    requires MessageTold(b, es) && !b.messageCompleted && !b.terminal
    ensures var (b', more) := CompleteTurn(b, turn);
            InputTold(b, SpeaksAs(Notify(TurnEnded(turn))), true, b', more, es)
  {
    var (b1, calls) := CompleteCalls(b, turn.entries);
    CompleteCallsBesides(b, turn.entries);
    BesidesTold(b, b1, calls, es);
    var (b2, text) := SyncFinal(b1, turn.entries);
    SyncFinalTold(b1, turn.entries, es + MessageEvents(calls));
    MoreMessage(es, calls, text);
    var (b3, end) := EndTurn(b2, turn);
    EndTurnTold(b2, turn, es + MessageEvents(calls + text));
    MoreMessage(es, calls + text, end);
  }

  lemma StopTold(b: State, input: Input, es: seq<Event>)
    requires MessageTold(b, es) && !b.messageCompleted && !b.terminal && !input.Notify?
    ensures var (b', more) := Consume(b, input); InputTold(b, None, true, b', more, es)
  {
    match input
    case Break(message) =>
      FinishTold(b, ResponseFailed, Some(Failure(ExecutionFailed, message)), b.reason, es);
    case Stop(reason) => FinishTold(b, ResponseIncomplete, b.error, Some(reason), es);
  }

  lemma CallTold(b: State, n: Notification, es: seq<Event>)
    requires MessageTold(b, es) && !b.messageCompleted && (n.ItemStarted? || n.CallCompleted?)
    ensures var (b', more) := Consume(b, Notify(n)); InputTold(b, None, false, b', more, es)
  {
    var (b', more) := Consume(b, Notify(n));
    if n.ItemStarted? {
      StartCallBesides(b, n.call);
    } else {
      CompleteCallBesides(b, n.call);
    }
    BesidesTold(b, b', more, es);
  }

  lemma TextTold(b: State, n: Notification, es: seq<Event>)
    requires MessageTold(b, es) && !b.messageCompleted && (n.MessageDelta? || n.MessageCompleted?)
    ensures var (b', more) := Consume(b, Notify(n)); InputTold(b, SpeaksAs(Notify(n)), false, b', more, es)
  {
    if n.MessageCompleted? {
      SyncCompletedTold(b, n.text, n.itemId, es);
    } else if n.delta == "" {
      assert es + [] == es;
    } else {
      AppendTextTold(b, n.delta, n.itemId, es);
    }
  }

  lemma OtherTold(b: State, n: Notification, es: seq<Event>)
    requires MessageTold(b, es) && !b.messageCompleted && !b.terminal && (n.ErrorReported? || n.Ignored?)
    ensures var (b', more) := Consume(b, Notify(n)); InputTold(b, None, Ends(Notify(n)), b', more, es)
  {
    if n.ErrorReported? && !n.willRetry {
      StopTold(b, Break(n.message), es);
    } else {
      assert es + [] == es;
    }
  }

  lemma ConsumeTold(b: State, input: Input, es: seq<Event>)
    requires MessageTold(b, es) && !b.messageCompleted && !b.terminal
    ensures var (b', more) := Consume(b, input); InputTold(b, SpeaksAs(input), Ends(input), b', more, es)
  {
    if !input.Notify? {
      StopTold(b, input, es);
    } else if input.n.ItemStarted? || input.n.CallCompleted? {
      CallTold(b, input.n, es);
    } else if input.n.MessageDelta? || input.n.MessageCompleted? {
      TextTold(b, input.n, es);
    } else if input.n.TurnEnded? {
      ConsumeTurn(b, input.n.turn);
      TurnTold(b, input.n.turn, es);
    } else {
      OtherTold(b, input.n, es);
    }
  }

  /** What a run has told of its message, and under which name. */
  ghost predicate RunTold(messageId: string, inputs: seq<Input>)
    requires messageId != ""
  {
    var b, speaker := StateAfter(messageId, inputs), Speaker(messageId, inputs);
    && MessageTold(b, MessageEvents(Stream(messageId, inputs)))
    && b.messageStarted == speaker.Some? && b.messageCompleted == (b.terminal && b.messageStarted)
    && b.messageId == if speaker.None? || speaker.value == "" then messageId else speaker.value
  }

  lemma NothingSaid(messageId: string)
    requires messageId != ""
    ensures RunTold(messageId, [])
  {
    var initial := InitialEvents(messageId);
    assert Stream(messageId, []) == initial && initial == [initial[0], initial[1]];
    NoneOfTwo(initial[0], initial[1]);
  }

  lemma LastTold(messageId: string, inputs: seq<Input>)
    requires messageId != "" && inputs != [] && RunTold(messageId, inputs[..|inputs| - 1])
    ensures RunTold(messageId, inputs)
  {
    var n := |inputs| - 1;
    var b, es := StateAfter(messageId, inputs[..n]), Stream(messageId, inputs[..n]);
    StreamGrows(messageId, inputs);
    StateGrows(messageId, inputs);
    if b.terminal {
      assert es + [] == es;
    } else {
      MessageIsOpen(messageId, inputs[..n]);
      ConsumeTold(b, inputs[n], MessageEvents(es));
      ConsumeEnds(b, inputs[n]);
      MessageConcat(es, Consume(b, inputs[n]).1);
    }
  }

  lemma {:induction false} RunIsTold(messageId: string, inputs: seq<Input>)
    requires messageId != ""
    ensures RunTold(messageId, inputs)
  {
    if inputs == [] {
      NothingSaid(messageId);
    } else {
      RunIsTold(messageId, inputs[..|inputs| - 1]);
      LastTold(messageId, inputs);
    }
  }

  /** The story of a message that speaks as `id` and has said `text`. */
  predicate Story(told: seq<Event>, id: string, k: nat, text: string, ended: bool) {
    if ended then
      |told| >= 3 && Telling(told[..|told| - 3], id, k) && told[|told| - 3..] == Ending(id, k, text)
    else Telling(told, id, k)
  }

  lemma ToldIsStory(b: State, told: seq<Event>)
    requires MessageTold(b, told) && b.messageStarted
    ensures b.messageIndex.Some? && Story(told, b.messageId, b.messageIndex.value, b.text, b.messageCompleted)
  {
  }

  /**
    The story of the message, told from the notifications alone.  It starts with the first input
    that speaks, under the id of that input.  Its events are, in this order: added empty and
    opened, then deltas; and once the stream has ended its text, its part and itself as done, each
    with all that was said.
   */
  lemma MessageStory(messageId: string, inputs: seq<Input>)
    requires messageId != ""
    ensures var b, told := StateAfter(messageId, inputs), MessageEvents(Stream(messageId, inputs));
            match Speaker(messageId, inputs)
            case None => told == [] && !b.messageStarted
            case Some(speaker) =>
              && b.messageIndex.Some?
              && Story(told, if speaker == "" then messageId else speaker, b.messageIndex.value,
                       SpokenText(messageId, inputs), b.terminal)
  {
    RunIsTold(messageId, inputs);
    TextIsSpoken(messageId, inputs);
    if StateAfter(messageId, inputs).messageStarted {
      ToldIsStory(StateAfter(messageId, inputs), MessageEvents(Stream(messageId, inputs)));
    }
  }
}
