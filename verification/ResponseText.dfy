/** The text of the message: what the deltas add up to and what is reported as done. */
module ResponseText {
  import opened Prelude
  import opened ResponseTranslation
  import opened ResponseEnding
  import opened ResponseInvariant

  function Deltas(es: seq<Event>): string {
    if es == [] then ""
    else
      var last := es[|es| - 1];
      Deltas(es[..|es| - 1]) + if last.TextDelta? then last.delta else ""
  }

  lemma {:induction false} DeltasConcat(a: seq<Event>, b: seq<Event>)
    ensures Deltas(a + b) == Deltas(a) + Deltas(b)
  {
    if b == [] {
      assert a + b == a;
    } else {
      DeltasConcat(a, b[..|b| - 1]);
      assert (a + b)[..|a + b| - 1] == a + b[..|b| - 1];
    }
  }

  /** Neither deltas nor a done text. */
  predicate Silent(es: seq<Event>) {
    forall k :: 0 <= k < |es| ==> !es[k].TextDelta? && !es[k].TextDone?
  }

  lemma {:induction false} SilentDeltas(es: seq<Event>)
    requires forall k :: 0 <= k < |es| ==> !es[k].TextDelta?
    ensures Deltas(es) == ""
  {
    if es != [] {
      SilentDeltas(es[..|es| - 1]);
    }
  }

  lemma OneDelta(started: seq<Event>, id: string, at: nat, delta: string)
    requires Silent(started)
    ensures Deltas(started + [TextDelta(id, at, delta)]) == delta
  {
    SilentDeltas(started);
    assert (started + [TextDelta(id, at, delta)])[..|started|] == started;
  }

  /** The completed text that an input carries; "" when it carries none. */
  function CompletedText(input: Input): string {
    if !input.Notify? then ""
    else match input.n
      case MessageCompleted(text, _) => text
      case TurnEnded(turn) => LastMessage(turn.entries).0
      case _ => ""
  }

  /** A completed text either extends what was streamed or is empty. */
  predicate Follows(b: State, input: Input) {
    CompletedText(input) == "" || Extends(CompletedText(input), b.text)
  }

  lemma StartMessageText(b: State, itemId: string)
    ensures var (b', more) := StartMessage(b, itemId); b'.text == b.text && Silent(more)
  {
  }

  lemma SyncMessageText(b: State)
    ensures SyncMessage(b).text == b.text
  {
  }

  predicate NoneDone(es: seq<Event>) {
    forall k :: 0 <= k < |es| ==> !es[k].TextDone?
  }

  lemma StartCallText(b: State, call: Source)
    ensures var (b', more) := StartCall(b, call); b'.text == b.text && Silent(more)
  {
  }

  lemma CallText(b: State, call: Source)
    ensures var (b', more) := CompleteCall(b, call); b'.text == b.text && Silent(more)
  {
    StartCallText(b, call);
  }

  lemma {:induction false} CompleteCallsText(b: State, entries: seq<Entry>)
    ensures var (b', more) := CompleteCalls(b, entries); b'.text == b.text && Silent(more)
  {
    if entries != [] {
      var n := |entries| - 1;
      CompleteCallsText(b, entries[..n]);
      if entries[n].CallEntry? {
        CallText(CompleteCalls(b, entries[..n]).0, entries[n].call);
      }
    }
  }

  lemma AppendTextText(b: State, delta: string, itemId: string)
    ensures var (b', more) := AppendText(b, delta, itemId);
            b'.text == b.text + delta && Deltas(more) == delta && NoneDone(more)
  {
    var (b1, started) := StartMessage(b, itemId);
    StartMessageText(b, itemId);
    var b2 := SyncMessage(b1.(text := b1.text + delta));
    SyncMessageText(b1.(text := b1.text + delta));
    OneDelta(started, b2.messageId, MessageIndexOrZero(b2), delta);
  }

  // ---------------------------------------------------------------- a completed text

  /** A completed text becomes the text; its deltas are what it adds, or none if it replaces. */
  predicate Takes(before: string, text: string, after: string, deltas: string) {
    && after == (if text == "" then before else text)
    && (if text == "" || Extends(text, before) then after == before + deltas else deltas == "")
  }

  lemma TakesMissing(before: string, text: string)
    requires text != "" && Extends(text, before)
    ensures Takes(before, text, before + text[|before|..], text[|before|..])
  {
    assert text == text[..|before|] + text[|before|..];
  }

  lemma TakesNothing(before: string, text: string)
    requires text == "" || text == before
    ensures Takes(before, text, before, "")
  {
  }

  lemma TakesReplacement(before: string, text: string)
    requires text != "" && !Extends(text, before)
    ensures Takes(before, text, text, "")
  {
  }

  lemma SyncCompletedText(b: State, text: string, itemId: string)
    ensures var (b', more) := SyncCompleted(b, text, itemId);
            Takes(b.text, text, b'.text, Deltas(more)) && NoneDone(more)
  {
    StartMessageText(b, itemId);
    SilentDeltas(StartMessage(b, itemId).1);
    if text == "" || text == b.text {
      SyncNothing(b, text, itemId);
      TakesNothing(b.text, text);
    } else if Extends(text, b.text) {
      SyncMissing(b, text, itemId);
      AppendTextText(b, text[|b.text|..], itemId);
      TakesMissing(b.text, text);
    } else {
      SyncReplaces(b, text, itemId);
      SyncMessageText(StartMessage(b, itemId).0.(text := text));
      TakesReplacement(b.text, text);
    }
  }

  /** Closing events carry no delta, and a done text is the text of the record. */
  predicate DoneWith(text: string, es: seq<Event>) {
    forall k :: 0 <= k < |es| ==> !es[k].TextDelta? && (es[k].TextDone? ==> es[k].text == text)
  }

  lemma FinishText(b: State, status: ResponseStatus, error: Option<Failure>, reason: Option<Reason>)
    ensures var (b', more) := Finish(b, status, error, reason); b'.text == b.text && DoneWith(b.text, more)
  {
  }

  lemma EndTurnText(b: State, turn: Turn)
    ensures var (b', more) := EndTurn(b, turn); b'.text == b.text && DoneWith(b.text, more)
  {
  }

  /** What an input does to the text; a text is reported as done at the end only. */
  ghost predicate TextEffect(before: string, completed: string, after: string, terminal: bool, more: seq<Event>) {
    && (if completed == "" || Extends(completed, before) then after == before + Deltas(more)
        else after == completed && Deltas(more) == "")
    && (if terminal then forall k :: 0 <= k < |more| && more[k].TextDone? ==> more[k].text == after
        else NoneDone(more))
  }

  ghost predicate TextStep(b: State, input: Input, b': State, more: seq<Event>) {
    TextEffect(b.text, CompletedText(input), b'.text, b'.terminal, more)
  }

  /** Nothing streamed and no text changed. */
  lemma NoEffect(text: string, terminal: bool, more: seq<Event>)
    requires if terminal then DoneWith(text, more) else Silent(more)
    ensures TextEffect(text, "", text, terminal, more)
  {
    SilentDeltas(more);
  }

  lemma TakesEffect(before: string, text: string, after: string, terminal: bool, more: seq<Event>)
    requires Takes(before, text, after, Deltas(more))
    requires if terminal then forall k :: 0 <= k < |more| && more[k].TextDone? ==> more[k].text == after
             else NoneDone(more)
    ensures TextEffect(before, text, after, terminal, more)
  {
  }

  lemma SyncFinalText(b: State, entries: seq<Entry>)
    ensures var (b', more) := SyncFinal(b, entries);
            Takes(b.text, LastMessage(entries).0, b'.text, Deltas(more)) && NoneDone(more)
  {
    var (final, itemId) := LastMessage(entries);
    if final != "" {
      SyncCompletedText(b, final, itemId);
    }
  }

  lemma TurnEvents(calls: seq<Event>, text: seq<Event>, end: seq<Event>, done: string)
    requires Silent(calls) && NoneDone(text) && DoneWith(done, end)
    ensures Deltas(calls + text + end) == Deltas(text)
    ensures var all := calls + text + end;
            forall k :: 0 <= k < |all| && all[k].TextDone? ==> all[k].text == done
  {
    SilentDeltas(calls);
    SilentDeltas(end);
    DeltasConcat(calls + text, end);
    DeltasConcat(calls, text);
  }

  lemma TurnText(b: State, turn: Turn)
    requires !b.terminal
    ensures var (b', more) := CompleteTurn(b, turn);
            && TextEffect(b.text, LastMessage(turn.entries).0, b'.text, b'.terminal, more)
            && b'.text == if LastMessage(turn.entries).0 == "" then b.text else LastMessage(turn.entries).0
  {
    var (b1, calls) := CompleteCalls(b, turn.entries);
    CompleteCallsText(b, turn.entries);
    var (b2, text) := SyncFinal(b1, turn.entries);
    SyncFinalText(b1, turn.entries);
    EndTurnText(b2, turn);
    var end := EndTurn(b2, turn).1;
    TurnEvents(calls, text, end, b2.text);
    TakesEffect(b.text, LastMessage(turn.entries).0, b2.text, true, calls + text + end);
  }

  lemma StopText(b: State, input: Input)
    requires !b.terminal && !input.Notify?
    ensures var (b', more) := Consume(b, input); b'.terminal && b'.text == b.text && DoneWith(b.text, more)
  {
    match input
    case Break(message) =>
      FinishText(b, ResponseFailed, Some(Failure(ExecutionFailed, message)), b.reason);
    case Stop(reason) => FinishText(b, ResponseIncomplete, b.error, Some(reason));
  }

  lemma StartCallStep(b: State, call: Source)
    requires !b.terminal
    ensures var (b', more) := Consume(b, Notify(ItemStarted(call))); TextStep(b, Notify(ItemStarted(call)), b', more)
  {
    StartCallText(b, call);
    StartCallOpen(b, call);
    NoEffect(b.text, false, StartCall(b, call).1);
  }

  lemma CompleteCallStep(b: State, call: Source)
    requires !b.terminal
    ensures var (b', more) := Consume(b, Notify(CallCompleted(call)));
            TextStep(b, Notify(CallCompleted(call)), b', more)
  {
    CallText(b, call);
    CompleteCallOpen(b, call);
    NoEffect(b.text, false, CompleteCall(b, call).1);
  }

  lemma DeltaStep(b: State, delta: string, itemId: string)
    requires !b.terminal
    ensures var (b', more) := Consume(b, Notify(MessageDelta(delta, itemId)));
            TextStep(b, Notify(MessageDelta(delta, itemId)), b', more)
  {
    AppendTextText(b, delta, itemId);
    AppendTextOpen(b, delta, itemId);
    NoEffect(b.text, false, []);
  }

  lemma MessageStep(b: State, text: string, itemId: string)
    requires !b.terminal
    ensures var (b', more) := Consume(b, Notify(MessageCompleted(text, itemId)));
            TextStep(b, Notify(MessageCompleted(text, itemId)), b', more)
  {
    var (b', more) := SyncCompleted(b, text, itemId);
    SyncCompletedText(b, text, itemId);
    SyncCompletedOpen(b, text, itemId);
    TakesEffect(b.text, text, b'.text, b'.terminal, more);
  }

  lemma ConsumeTurn(b: State, turn: Turn)
    ensures Consume(b, Notify(TurnEnded(turn))) == CompleteTurn(b, turn)
  {
  }

  lemma TurnCarries(turn: Turn)
    ensures CompletedText(Notify(TurnEnded(turn))) == LastMessage(turn.entries).0
  {
  }

  lemma TurnEndedStep(b: State, turn: Turn)
    requires !b.terminal
    ensures var (b', more) := Consume(b, Notify(TurnEnded(turn)));
            TextStep(b, Notify(TurnEnded(turn)), b', more)
  {
    ConsumeTurn(b, turn);
    TurnText(b, turn);
    TurnCarries(turn);
  }

  lemma StopStep(b: State, input: Input)
    requires !b.terminal && !input.Notify?
    ensures var (b', more) := Consume(b, input); TextStep(b, input, b', more)
  {
    StopText(b, input);
    NoEffect(b.text, true, Consume(b, input).1);
  }

  lemma OtherStep(b: State, n: Notification)
    requires !b.terminal && (n.ErrorReported? || n.Ignored?)
    ensures var (b', more) := Consume(b, Notify(n)); TextStep(b, Notify(n), b', more)
  {
    NoEffect(b.text, false, []);
    if n.ErrorReported? {
      StopStep(b, Break(n.message));
    }
  }

  lemma ConsumeText(b: State, input: Input)
    requires !b.terminal
    ensures var (b', more) := Consume(b, input); TextStep(b, input, b', more)
  {
    match input {
      case Break(_) => StopStep(b, input);
      case Stop(_) => StopStep(b, input);
      case Notify(n) =>
        match n {
          case ItemStarted(call) => StartCallStep(b, call);
          case CallCompleted(call) => CompleteCallStep(b, call);
          case MessageDelta(delta, itemId) => DeltaStep(b, delta, itemId);
          case MessageCompleted(text, itemId) => MessageStep(b, text, itemId);
          case TurnEnded(turn) => TurnEndedStep(b, turn);
          case _ => OtherStep(b, n);
        }
    }
  }

  // ---------------------------------------------------------------- over whole runs

  /** Every completed text that the driver reads extends what was streamed before it. */
  ghost predicate AllFollow(messageId: string, inputs: seq<Input>)
    requires messageId != ""
  {
    forall k :: 0 <= k < |inputs| ==> FollowsAt(messageId, inputs, k)
  }

  predicate FollowsAt(messageId: string, inputs: seq<Input>, k: nat)
    requires messageId != "" && k < |inputs|
  {
    var b := StateAfter(messageId, inputs[..k]);
    b.terminal || Follows(b, inputs[k])
  }

  lemma AllFollowPrefix(messageId: string, inputs: seq<Input>)
    requires messageId != "" && inputs != [] && AllFollow(messageId, inputs)
    ensures AllFollow(messageId, inputs[..|inputs| - 1])
  {
    var front := inputs[..|inputs| - 1];
    forall k | 0 <= k < |front| ensures FollowsAt(messageId, front, k) {
      assert FollowsAt(messageId, inputs, k) && front[..k] == inputs[..k];
    }
  }

  /** Whatever happens, a text reported as done is the record's text at the end. */
  lemma {:induction false} DoneTextIsFinal(messageId: string, inputs: seq<Input>)
    requires messageId != ""
    ensures var b, es := StateAfter(messageId, inputs), Stream(messageId, inputs);
            && (forall k :: 0 <= k < |es| && es[k].TextDone? ==> es[k].text == b.text)
            && (b.terminal || NoneDone(es))
  {
    if inputs != [] {
      var n := |inputs| - 1;
      DoneTextIsFinal(messageId, inputs[..n]);
      StreamGrows(messageId, inputs);
      var b := StateAfter(messageId, inputs[..n]);
      if !b.terminal {
        ConsumeText(b, inputs[n]);
      }
    }
  }

  // ---------------------------------------------------------------- when the deltas give the text

  /** The last input read whose completed text replaced what was streamed. */
  function LastReplacement(messageId: string, inputs: seq<Input>): (r: Option<nat>)
    requires messageId != ""
    ensures r.Some? ==> r.value < |inputs|
  {
    if inputs == [] then None
    else
      var n := |inputs| - 1;
      var b := StateAfter(messageId, inputs[..n]);
      if !b.terminal && !Follows(b, inputs[n]) then Some(n) else LastReplacement(messageId, inputs[..n])
  }

  function StreamedText(messageId: string, inputs: seq<Input>): string
    requires messageId != ""
  {
    Deltas(Stream(messageId, inputs))
  }

  lemma SameTail(a: string, b: string, tail: string)
    ensures a + tail == b + tail <==> a == b
  {
    if a + tail == b + tail {
      assert a == (a + tail)[..|a|] && b == (b + tail)[..|b|];
    }
  }

  lemma AgreementCore(streamed: string, before: string, completed: string, after: string, terminal: bool,
                      more: seq<Event>)
    requires TextEffect(before, completed, after, terminal, more)
    ensures streamed + Deltas(more) == after <==>
            streamed == if completed == "" || Extends(completed, before) then before else completed
  {
    SameTail(streamed, before, Deltas(more));
    assert streamed + "" == streamed;
  }

  /** Agreement survives a text that follows and no other; after one that replaces, that text alone decides. */
  lemma AgreementStep(messageId: string, inputs: seq<Input>)
    requires messageId != "" && inputs != [] && !StateAfter(messageId, inputs[..|inputs| - 1]).terminal
    ensures var front, last := inputs[..|inputs| - 1], inputs[|inputs| - 1];
            var b, streamed := StateAfter(messageId, front), StreamedText(messageId, front);
            StreamedText(messageId, inputs) == StateAfter(messageId, inputs).text <==>
              streamed == if Follows(b, last) then b.text else CompletedText(last)
  {
    var front, last := inputs[..|inputs| - 1], inputs[|inputs| - 1];
    var b := StateAfter(messageId, front);
    var (b', more) := Consume(b, last);
    StreamGrows(messageId, inputs);
    StateGrows(messageId, inputs);
    DeltasConcat(Stream(messageId, front), more);
    ConsumeText(b, last);
    AgreementCore(StreamedText(messageId, front), b.text, CompletedText(last), b'.text, b'.terminal, more);
  }

  /** The condition under which the deltas add up to the text. */
  predicate Reconstructible(messageId: string, inputs: seq<Input>)
    requires messageId != ""
  {
    match LastReplacement(messageId, inputs)
    case None => true
    case Some(k) => CompletedText(inputs[k]) == StreamedText(messageId, inputs[..k])
  }

  lemma EndedStays(messageId: string, inputs: seq<Input>)
    requires messageId != "" && inputs != []
    requires StateAfter(messageId, inputs[..|inputs| - 1]).terminal
    ensures StateAfter(messageId, inputs) == StateAfter(messageId, inputs[..|inputs| - 1])
    ensures StreamedText(messageId, inputs) == StreamedText(messageId, inputs[..|inputs| - 1])
  {
    var before := Stream(messageId, inputs[..|inputs| - 1]);
    StreamGrows(messageId, inputs);
    assert before + [] == before;
  }

  lemma ReconstructibleStep(messageId: string, inputs: seq<Input>)
    requires messageId != "" && inputs != []
    ensures var front, last := inputs[..|inputs| - 1], inputs[|inputs| - 1];
            var b := StateAfter(messageId, front);
            Reconstructible(messageId, inputs) ==
              if b.terminal || Follows(b, last) then Reconstructible(messageId, front)
              else CompletedText(last) == StreamedText(messageId, front)
  {
    var front := inputs[..|inputs| - 1];
    var r := LastReplacement(messageId, front);
    if r.Some? {
      assert inputs[r.value] == front[r.value] && inputs[..r.value] == front[..r.value];
    }
  }

  lemma {:induction false} AgreesExactly(messageId: string, inputs: seq<Input>)
    requires messageId != ""
    ensures StreamedText(messageId, inputs) == StateAfter(messageId, inputs).text <==>
            Reconstructible(messageId, inputs)
  {
    if inputs == [] {
      SilentDeltas(Stream(messageId, inputs));
    } else {
      var n := |inputs| - 1;
      var front := inputs[..n];
      AgreesExactly(messageId, front);
      ReconstructibleStep(messageId, inputs);
      if StateAfter(messageId, front).terminal {
        EndedStays(messageId, inputs);
      } else {
        AgreementStep(messageId, inputs);
      }
    }
  }

  /**
    Over any run, the deltas add up to the text, and so to any text reported as done, if and only
    if no completed text replaced what was streamed, or the last one to do so was what the deltas
    before it add up to.
   */
  lemma TextReconstruction(messageId: string, inputs: seq<Input>)
    requires messageId != ""
    ensures StreamedText(messageId, inputs) == StateAfter(messageId, inputs).text <==>
            Reconstructible(messageId, inputs)
    ensures var es := Stream(messageId, inputs);
            forall k :: 0 <= k < |es| && es[k].TextDone? ==>
              (es[k].text == Deltas(es) <==> Reconstructible(messageId, inputs))
  {
    AgreesExactly(messageId, inputs);
    DoneTextIsFinal(messageId, inputs);
  }

  /** In particular they do when every completed text that is read extends what was streamed. */
  lemma {:induction false} ExtendingTextsReconstruct(messageId: string, inputs: seq<Input>)
    requires messageId != "" && AllFollow(messageId, inputs)
    ensures LastReplacement(messageId, inputs) == None
    ensures var es := Stream(messageId, inputs);
            forall k :: 0 <= k < |es| && es[k].TextDone? ==> es[k].text == Deltas(es)
  {
    TextReconstruction(messageId, inputs);
    if inputs != [] {
      var n := |inputs| - 1;
      assert FollowsAt(messageId, inputs, n);
      AllFollowPrefix(messageId, inputs);
      ExtendingTextsReconstruct(messageId, inputs[..n]);
    }
  }

  lemma MessageOpenAfterSync(b: State, text: string, itemId: string)
    requires !b.messageCompleted
    ensures var b' := SyncCompleted(b, text, itemId).0; b'.messageStarted && !b'.messageCompleted
  {
  }

  lemma {:induction false} CallsKeepMessage(b: State, entries: seq<Entry>)
    ensures CompleteCalls(b, entries).0.messageCompleted == b.messageCompleted
  {
    if entries != [] {
      CallsKeepMessage(b, entries[..|entries| - 1]);
    }
  }

  lemma EndTurnReports(b: State, turn: Turn)
    requires b.messageStarted && !b.messageCompleted
    ensures ReportsText(EndTurn(b, turn).1)
  {
  }

  /** The events of a turn with a final message end in its four closing events. */
  lemma TurnReportsFinalText(b: State, turn: Turn)
    requires !b.terminal && !b.messageCompleted && LastMessage(turn.entries).0 != ""
    ensures ReportsText(CompleteTurn(b, turn).1)
  {
    var (b1, calls) := CompleteCalls(b, turn.entries);
    CallsKeepMessage(b, turn.entries);
    var (final, itemId) := LastMessage(turn.entries);
    MessageOpenAfterSync(b1, final, itemId);
    var (b2, text) := SyncFinal(b1, turn.entries);
    EndTurnReports(b2, turn);
    ReportsAfter(calls + text, EndTurn(b2, turn).1);
  }

  /** A text is reported as done in the fourth event from the end, before part, item and response. */
  predicate ReportsText(es: seq<Event>) {
    |es| >= 4 && es[|es| - 4].TextDone?
  }

  lemma ReportsAfter(before: seq<Event>, more: seq<Event>)
    requires ReportsText(more)
    ensures ReportsText(before + more)
  {
  }

  /** The end of a turn, read by a builder that has not ended. */
  lemma TurnNext(messageId: string, inputs: seq<Input>, turn: Turn)
    requires messageId != "" && !StateAfter(messageId, inputs).terminal
    ensures var (b, more) := CompleteTurn(StateAfter(messageId, inputs), turn);
            && StateAfter(messageId, inputs + [Notify(TurnEnded(turn))]) == b
            && Stream(messageId, inputs + [Notify(TurnEnded(turn))]) == Stream(messageId, inputs) + more
  {
    ConsumeNext(messageId, inputs, Notify(TurnEnded(turn)));
    ConsumeTurn(StateAfter(messageId, inputs), turn);
  }

  lemma TurnLeavesText(messageId: string, inputs: seq<Input>, turn: Turn)
    requires messageId != "" && !StateAfter(messageId, inputs).terminal
    requires LastMessage(turn.entries).0 != ""
    ensures StateAfter(messageId, inputs + [Notify(TurnEnded(turn))]).text == LastMessage(turn.entries).0
  {
    var b := StateAfter(messageId, inputs);
    TurnText(b, turn);
    TurnNext(messageId, inputs, turn);
  }

  lemma MessageIsOpen(messageId: string, inputs: seq<Input>)
    requires messageId != "" && !StateAfter(messageId, inputs).terminal
    ensures !StateAfter(messageId, inputs).messageCompleted
  {
    RunValid(messageId, inputs);
  }

  lemma TurnReportsText(messageId: string, inputs: seq<Input>, turn: Turn)
    requires messageId != "" && !StateAfter(messageId, inputs).terminal
    requires LastMessage(turn.entries).0 != ""
    ensures ReportsText(Stream(messageId, inputs + [Notify(TurnEnded(turn))]))
  {
    var b := StateAfter(messageId, inputs);
    MessageIsOpen(messageId, inputs);
    TurnReportsFinalText(b, turn);
    TurnNext(messageId, inputs, turn);
    ReportsAfter(Stream(messageId, inputs), CompleteTurn(b, turn).1);
  }

  /** A turn that ends with a non-empty final agent message reports exactly that text as done. */
  lemma FinalMessageIsReported(messageId: string, inputs: seq<Input>, turn: Turn)
    requires messageId != "" && !StateAfter(messageId, inputs).terminal
    requires LastMessage(turn.entries).0 != ""
    ensures var es := Stream(messageId, inputs + [Notify(TurnEnded(turn))]);
            && ReportsText(es)
            && forall k :: 0 <= k < |es| && es[k].TextDone? ==> es[k].text == LastMessage(turn.entries).0
  {
    TurnLeavesText(messageId, inputs, turn);
    TurnReportsText(messageId, inputs, turn);
    DoneTextIsFinal(messageId, inputs + [Notify(TurnEnded(turn))]);
  }

  lemma FirstDelta(messageId: string, delta: string)
    requires messageId != "" && delta != ""
    ensures var inputs := [Notify(MessageDelta(delta, ""))];
            && StateAfter(messageId, inputs).text == delta && !StateAfter(messageId, inputs).terminal
            && Deltas(Stream(messageId, inputs)) == delta
  {
    var input := Notify(MessageDelta(delta, ""));
    var b := StateAfter(messageId, []);
    assert [] + [input] == [input];
    ConsumeNext(messageId, [], input);
    AppendTextText(b, delta, "");
    SilentDeltas(Stream(messageId, []));
    DeltasConcat(Stream(messageId, []), AppendText(b, delta, "").1);
  }

  /** A final text that does not extend the streamed one: the deltas do not give what is reported. */
  lemma ReplacedTextIsNotStreamed(messageId: string, draft: string, final: string)
    requires messageId != "" && draft != "" && final != "" && !Extends(final, draft)
    ensures var inputs := [Notify(MessageDelta(draft, "")), Notify(MessageCompleted(final, ""))];
            && StateAfter(messageId, inputs).text == final
            && StreamedText(messageId, inputs) == draft != final
  {
    var first, second := [Notify(MessageDelta(draft, ""))], Notify(MessageCompleted(final, ""));
    assert [first[0], second] == first + [second];
    FirstDelta(messageId, draft);
    var b := StateAfter(messageId, first);
    ConsumeNext(messageId, first, second);
    DeltasConcat(Stream(messageId, first), SyncCompleted(b, final, "").1);
    SyncCompletedText(b, final, "");
  }
}
