/**
  The shape of the translated stream: what happens to each item, and where.  `messages` is a set
  of ids that holds every id an agent message may take and no id of a tool call.
 */
module ResponseLifecycle {
  import opened Prelude
  import opened ResponseTranslation

  // ---------------------------------------------------------------- assumptions on ids

  predicate CallId(messages: set<string>, call: Source) {
    call.id !in messages
  }

  predicate MessageId(messages: set<string>, itemId: string) {
    itemId == "" || itemId in messages
  }

  predicate EntryIds(messages: set<string>, entry: Entry) {
    match entry
    case CallEntry(call) => CallId(messages, call)
    case MessageEntry(_, itemId) => MessageId(messages, itemId)
    case OtherEntry => true
  }

  predicate TurnIds(messages: set<string>, entries: seq<Entry>) {
    forall k :: 0 <= k < |entries| ==> EntryIds(messages, entries[k])
  }

  predicate InputIds(messages: set<string>, input: Input) {
    input.Notify? ==>
      match input.n
      case ItemStarted(call) => CallId(messages, call)
      case CallCompleted(call) => CallId(messages, call)
      case MessageDelta(_, itemId) => MessageId(messages, itemId)
      case MessageCompleted(_, itemId) => MessageId(messages, itemId)
      case TurnEnded(turn) => TurnIds(messages, turn.entries)
      case _ => true
  }

  predicate AllIds(messages: set<string>, inputs: seq<Input>) {
    forall k :: 0 <= k < |inputs| ==> InputIds(messages, inputs[k])
  }

  // ---------------------------------------------------------------- phases of an item

  /** The item an event is about, with the position it claims for it. */
  function Subject(e: Event): Option<(string, nat)> {
    match e
    case ItemAdded(k, item) => Some((item.id, k))
    case ItemDone(k, item) => Some((item.id, k))
    case ArgumentsDone(id, k, _) => Some((id, k))
    case CallRunning(id, k) => Some((id, k))
    case CallSucceeded(id, k) => Some((id, k))
    case CallFailed(id, k) => Some((id, k))
    case PartAdded(id, k) => Some((id, k))
    case TextDelta(id, k, _) => Some((id, k))
    case TextDone(id, k, _) => Some((id, k))
    case PartDone(id, k, _) => Some((id, k))
    case _ => None
  }

  predicate About(e: Event, id: string) {
    Subject(e).Some? && Subject(e).value.0 == id
  }

  datatype Phase = Absent | Added | Done | Broken

  /** An item is added, then spoken of, then done; any other order breaks it for good. */
  function Advance(p: Phase, e: Event, id: string): Phase {
    if !About(e, id) then p
    else if e.ItemAdded? then (if p == Absent then Added else Broken)
    else if p != Added then Broken
    else if e.ItemDone? then Done
    else Added
  }

  function PhaseOf(es: seq<Event>, id: string): Phase {
    if es == [] then Absent else Advance(PhaseOf(es[..|es| - 1], id), es[|es| - 1], id)
  }

  lemma PhaseNext(es: seq<Event>, a: Event, id: string)
    ensures PhaseOf(es + [a], id) == Advance(PhaseOf(es, id), a, id)
  {
    assert (es + [a])[..|es|] == es;
  }

  lemma PhaseNext2(es: seq<Event>, a: Event, b: Event, id: string)
    ensures PhaseOf(es + [a, b], id) == Advance(Advance(PhaseOf(es, id), a, id), b, id)
  {
    assert es + [a, b] == (es + [a]) + [b];
    PhaseNext(es, a, id);
    PhaseNext(es + [a], b, id);
  }

  lemma PhaseNext3(es: seq<Event>, a: Event, b: Event, c: Event, id: string)
    ensures PhaseOf(es + [a, b, c], id) ==
            Advance(Advance(Advance(PhaseOf(es, id), a, id), b, id), c, id)
  {
    assert es + [a, b, c] == (es + [a, b]) + [c];
    PhaseNext2(es, a, b, id);
    PhaseNext(es + [a, b], c, id);
  }

  // ---------------------------------------------------------------- what phases mean

  function Adds(es: seq<Event>, id: string): nat {
    if es == [] then 0
    else
      var last := es[|es| - 1];
      Adds(es[..|es| - 1], id) + if last.ItemAdded? && About(last, id) then 1 else 0
  }

  function Dones(es: seq<Event>, id: string): nat {
    if es == [] then 0
    else
      var last := es[|es| - 1];
      Dones(es[..|es| - 1], id) + if last.ItemDone? && About(last, id) then 1 else 0
  }

  /** Added at most once, done at most once, and every other event of the item lies between. */
  ghost predicate WellOrdered(es: seq<Event>, id: string) {
    && Adds(es, id) <= 1 && Dones(es, id) <= 1
    && forall k :: 0 <= k < |es| && About(es[k], id) ==>
         && Dones(es[..k], id) == 0
         && Adds(es[..k], id) == if es[k].ItemAdded? then 0 else 1
  }

  lemma {:induction false} PhaseMeaning(es: seq<Event>, id: string)
    requires PhaseOf(es, id) != Broken
    ensures WellOrdered(es, id)
    ensures Adds(es, id) == if PhaseOf(es, id) == Absent then 0 else 1
    ensures Dones(es, id) == if PhaseOf(es, id) == Done then 1 else 0
  {
    if es != [] {
      var n := |es| - 1;
      PhaseMeaning(es[..n], id);
      forall k | 0 <= k < |es| && About(es[k], id)
        ensures Dones(es[..k], id) == 0 && Adds(es[..k], id) == if es[k].ItemAdded? then 0 else 1
      {
        if k < n {
          assert About(es[..n][k], id) && es[..n][..k] == es[..k];
        }
      }
    }
  }

  // ---------------------------------------------------------------- the invariant of the builder

  predicate Separate(messages: set<string>, b: State) {
    && b.messageId in messages
    && (forall id :: id in b.indexes && id in messages ==> b.messageStarted && id == b.messageId)
    && (forall id :: id in b.completedCalls ==> id in b.indexes && id !in messages)
  }

  function Expected(b: State, id: string): Phase {
    if id !in b.indexes then Absent
    else if b.messageStarted && id == b.messageId then (if b.messageCompleted then Done else Added)
    else if id in b.completedCalls then Done else Added
  }

  /** The message item shows the current text. */
  predicate Synced(b: State) {
    b.messageStarted ==>
      && b.messageIndex.Some? && b.messageIndex.value < |b.items|
      && b.items[b.messageIndex.value] == Message(b)
  }

  ghost predicate Phased(b: State, es: seq<Event>) {
    forall id :: PhaseOf(es, id) == Expected(b, id)
  }

  ghost predicate Sound(messages: set<string>, b: State, es: seq<Event>) {
    Valid(b) && Separate(messages, b) && Synced(b) && Phased(b, es)
  }

  lemma StartCallSound(messages: set<string>, b: State, es: seq<Event>, call: Source)
    requires Sound(messages, b, es) && CallId(messages, call)
    ensures var (b', more) := StartCall(b, call); Sound(messages, b', es + more)
  {
    var (b', more) := StartCall(b, call);
    if more == [] {
      assert es + more == es;
    } else {
      forall id ensures PhaseOf(es + more, id) == Expected(b', id) {
        PhaseNext3(es, more[0], more[1], more[2], id);
        assert PhaseOf(es, id) == Expected(b, id);
      }
    }
  }

  /** A call that is listed and not yet done: its item is replaced in place and reported done. */
  lemma DoneCallSound(messages: set<string>, b: State, es: seq<Event>, item: Item, outcome: Event)
    requires Sound(messages, b, es) && item.id != "" && item.id !in messages
    requires item.id in b.indexes && item.id !in b.completedCalls
    requires outcome == CallFailed(item.id, b.indexes[item.id])
             || outcome == CallSucceeded(item.id, b.indexes[item.id])
    ensures var (b1, k) := AddItem(b, item);
            Sound(messages, b1.(completedCalls := b1.completedCalls + {item.id}), es + [outcome, ItemDone(k, item)])
  {
    var (b1, k) := AddItem(b, item);
    var b2 := b1.(completedCalls := b1.completedCalls + {item.id});
    forall id ensures PhaseOf(es + [outcome, ItemDone(k, item)], id) == Expected(b2, id) {
      PhaseNext2(es, outcome, ItemDone(k, item), id);
      assert PhaseOf(es, id) == Expected(b, id);
    }
  }

  lemma CompleteCallSound(messages: set<string>, b: State, es: seq<Event>, call: Source)
    requires Sound(messages, b, es) && CallId(messages, call) && !b.terminal
    ensures var (b', more) := CompleteCall(b, call); Sound(messages, b', es + more)
  {
    var (b', more) := CompleteCall(b, call);
    if call.id == "" || call.id in b.completedCalls {
      assert es + more == es;
    } else {
      var (b1, started) := StartCall(b, call);
      StartCallSound(messages, b, es, call);
      var n := |started|;
      DoneCallSound(messages, b1, es + started, CallItemOf(call, true), more[n]);
      assert es + more == es + started + [more[n], more[n + 1]];
    }
  }

  lemma StartMessageSound(messages: set<string>, b: State, es: seq<Event>, itemId: string)
    requires Sound(messages, b, es) && MessageId(messages, itemId) && !b.terminal
    ensures var (b', more) := StartMessage(b, itemId);
            Sound(messages, b', es + more) && b'.messageStarted && !b'.messageCompleted
  {
    var (b', more) := StartMessage(b, itemId);
    if b.messageStarted {
      assert es + more == es;
    } else {
      forall id ensures PhaseOf(es + more, id) == Expected(b', id) {
        PhaseNext2(es, more[0], more[1], id);
        assert PhaseOf(es, id) == Expected(b, id);
      }
    }
  }

  /** While the message is open its text may change, with or without a delta. */
  lemma TextSound(messages: set<string>, b: State, es: seq<Event>, text: string, delta: string)
    requires Sound(messages, b, es) && b.messageStarted && !b.messageCompleted
    ensures var b' := SyncMessage(b.(text := text));
            && Sound(messages, b', es)
            && Sound(messages, b', es + [TextDelta(b'.messageId, MessageIndexOrZero(b'), delta)])
  {
    var b' := SyncMessage(b.(text := text));
    var e := TextDelta(b'.messageId, MessageIndexOrZero(b'), delta);
    forall id ensures Expected(b', id) == Expected(b, id)
                      && PhaseOf(es, id) == PhaseOf(es + [e], id) == Expected(b, id) {
      PhaseNext(es, e, id);
      assert PhaseOf(es, id) == Expected(b, id);
    }
  }

  lemma AppendTextSound(messages: set<string>, b: State, es: seq<Event>, delta: string, itemId: string)
    requires Sound(messages, b, es) && MessageId(messages, itemId) && !b.terminal
    ensures var (b', more) := AppendText(b, delta, itemId); Sound(messages, b', es + more)
  {
    var (b1, started) := StartMessage(b, itemId);
    StartMessageSound(messages, b, es, itemId);
    TextSound(messages, b1, es + started, b1.text + delta, delta);
    var (b', more) := AppendText(b, delta, itemId);
    assert es + more == es + started + [TextDelta(b'.messageId, MessageIndexOrZero(b'), delta)];
  }

  lemma SyncCompletedSound(messages: set<string>, b: State, es: seq<Event>, text: string, itemId: string)
    requires Sound(messages, b, es) && MessageId(messages, itemId) && !b.terminal
    ensures var (b', more) := SyncCompleted(b, text, itemId); Sound(messages, b', es + more)
  {
    if text == "" || text == b.text {
      SyncNothing(b, text, itemId);
      StartMessageSound(messages, b, es, itemId);
    } else if Extends(text, b.text) {
      SyncMissing(b, text, itemId);
      AppendTextSound(messages, b, es, text[|b.text|..], itemId);
    } else {
      SyncReplaces(b, text, itemId);
      var (b1, started) := StartMessage(b, itemId);
      StartMessageSound(messages, b, es, itemId);
      TextSound(messages, b1, es + started, text, "");
    }
  }

  lemma FinishMessageSound(messages: set<string>, b: State, es: seq<Event>)
    requires Sound(messages, b, es)
    ensures var (b', more) := FinishMessage(b);
            && Valid(b'.(terminal := true))
            && Separate(messages, b') && Synced(b') && Phased(b', es + more)
  {
    var (b', more) := FinishMessage(b);
    if more == [] {
      assert es + more == es;
    } else {
      forall id ensures PhaseOf(es + more, id) == Expected(b', id) {
        PhaseNext3(es, more[0], more[1], more[2], id);
        assert PhaseOf(es, id) == Expected(b, id);
      }
    }
  }

  /** The record's outcome and the terminal event are about no item. */
  lemma OutcomeSound(messages: set<string>, b: State, es: seq<Event>, b1: State, e: Event)
    requires Valid(b1) && Separate(messages, b) && Synced(b) && Phased(b, es) && e.Finished?
    requires b1 == b.(terminal := b1.terminal, status := b1.status, error := b1.error,
                      reason := b1.reason, usage := b1.usage)
    ensures Snapshot(b1).0 == b1 && Sound(messages, b1, es + [e])
  {
    forall id ensures PhaseOf(es + [e], id) == Expected(b1, id) {
      PhaseNext(es, e, id);
      assert PhaseOf(es, id) == Expected(b, id);
    }
  }

  lemma FinishSound(messages: set<string>, b: State, es: seq<Event>, status: ResponseStatus,
                    error: Option<Failure>, reason: Option<Reason>)
    requires Sound(messages, b, es)
    ensures var (b', more) := Finish(b, status, error, reason); Sound(messages, b', es + more)
  {
    var (b1, done) := FinishMessage(b);
    FinishMessageSound(messages, b, es);
    var b2 := b1.(status := status, error := error, reason := reason, terminal := true);
    var e := Finished(Snapshot(b2).1);
    OutcomeSound(messages, b1, es + done, b2, e);
    assert es + (done + [e]) == es + done + [e];
  }

  lemma EndTurnSound(messages: set<string>, b: State, es: seq<Event>, turn: Turn)
    requires Sound(messages, b, es)
    ensures var (b', more) := EndTurn(b, turn); Sound(messages, b', es + more)
  {
    var (b1, done) := FinishMessage(b);
    FinishMessageSound(messages, b, es);
    var b2 := b1.(usage := turn.usage, status := TurnOutcome(turn.status), terminal := true,
                  reason := if turn.status == TurnInterrupted then Some(Cancelled) else b1.reason,
                  error := if turn.status == TurnOther then Some(Failure(TurnFailed, turn.error))
                           else b1.error);
    var e := Finished(Snapshot(b2).1);
    OutcomeSound(messages, b1, es + done, b2, e);
    assert es + (done + [e]) == es + done + [e];
  }

  lemma {:induction false} CompleteCallsSound(messages: set<string>, b: State, es: seq<Event>, entries: seq<Entry>)
    requires Sound(messages, b, es) && TurnIds(messages, entries) && !b.terminal
    ensures var (b', more) := CompleteCalls(b, entries);
            Sound(messages, b', es + more) && !b'.terminal
  {
    if entries == [] {
      assert es + [] == es;
    } else {
      var n := |entries| - 1;
      CompleteCallsSound(messages, b, es, entries[..n]);
      var (b1, calls) := CompleteCalls(b, entries[..n]);
      assert EntryIds(messages, entries[n]);
      if entries[n].CallEntry? {
        CompleteCallSound(messages, b1, es + calls, entries[n].call);
        var more := CompleteCall(b1, entries[n].call).1;
        assert es + (calls + more) == es + calls + more;
      }
    }
  }

  lemma {:induction false} LastMessageId(messages: set<string>, entries: seq<Entry>)
    requires TurnIds(messages, entries)
    ensures MessageId(messages, LastMessage(entries).1)
  {
    if entries != [] {
      assert EntryIds(messages, entries[|entries| - 1]);
      LastMessageId(messages, entries[..|entries| - 1]);
    }
  }

  lemma SyncFinalSound(messages: set<string>, b: State, es: seq<Event>, entries: seq<Entry>)
    requires Sound(messages, b, es) && TurnIds(messages, entries) && !b.terminal
    ensures var (b', more) := SyncFinal(b, entries); Sound(messages, b', es + more)
  {
    LastMessageId(messages, entries);
    var (final, itemId) := LastMessage(entries);
    if final == "" {
      assert es + [] == es;
    } else {
      SyncCompletedSound(messages, b, es, final, itemId);
    }
  }

  /** The part of a turn's end that precedes the outcome. */
  lemma BeforeOutcomeSound(messages: set<string>, b: State, es: seq<Event>, entries: seq<Entry>)
    requires Sound(messages, b, es) && TurnIds(messages, entries) && !b.terminal
    ensures var (b1, calls) := CompleteCalls(b, entries);
            var (b2, text) := SyncFinal(b1, entries);
            Sound(messages, b2, es + (calls + text))
  {
    var (b1, calls) := CompleteCalls(b, entries);
    CompleteCallsSound(messages, b, es, entries);
    var text := SyncFinal(b1, entries).1;
    SyncFinalSound(messages, b1, es + calls, entries);
    assert es + (calls + text) == es + calls + text;
  }

  lemma CompleteTurnSound(messages: set<string>, b: State, es: seq<Event>, turn: Turn)
    requires Sound(messages, b, es) && TurnIds(messages, turn.entries) && !b.terminal
    ensures var (b', more) := CompleteTurn(b, turn); Sound(messages, b', es + more)
  {
    var (b1, calls) := CompleteCalls(b, turn.entries);
    var (b2, text) := SyncFinal(b1, turn.entries);
    BeforeOutcomeSound(messages, b, es, turn.entries);
    var end := EndTurn(b2, turn).1;
    EndTurnSound(messages, b2, es + (calls + text), turn);
    assert es + (calls + text + end) == es + (calls + text) + end;
  }

  lemma ConsumeSound(messages: set<string>, b: State, es: seq<Event>, input: Input)
    requires Sound(messages, b, es) && InputIds(messages, input) && !b.terminal
    ensures var (b', more) := Consume(b, input); Sound(messages, b', es + more)
  {
    assert es + [] == es;
    match input
    case Break(message) =>
      FinishSound(messages, b, es, ResponseFailed, Some(Failure(ExecutionFailed, message)), b.reason);
    case Stop(reason) => FinishSound(messages, b, es, ResponseIncomplete, b.error, Some(reason));
    case Notify(n) =>
      match n
      case ItemStarted(call) => StartCallSound(messages, b, es, call);
      case MessageDelta(delta, itemId) =>
        if delta != "" { AppendTextSound(messages, b, es, delta, itemId); }
      case MessageCompleted(text, itemId) => SyncCompletedSound(messages, b, es, text, itemId);
      case CallCompleted(call) => CompleteCallSound(messages, b, es, call);
      case TurnEnded(turn) => CompleteTurnSound(messages, b, es, turn);
      case ErrorReported(willRetry, message) =>
        if !willRetry {
          FinishSound(messages, b, es, ResponseFailed, Some(Failure(ExecutionFailed, message)), b.reason);
        }
      case Ignored =>
  }

  lemma InitialSound(messages: set<string>, messageId: string)
    requires messageId != "" && messageId in messages
    ensures Sound(messages, Initial(messageId), InitialEvents(messageId))
  {
    var initial := InitialEvents(messageId);
    forall id ensures PhaseOf(initial, id) == Absent {
      assert initial == [] + [initial[0], initial[1]];
      PhaseNext2([], initial[0], initial[1], id);
    }
  }

  lemma {:induction false} DriveSound(messages: set<string>, messageId: string, inputs: seq<Input>)
    requires messageId != "" && messageId in messages && AllIds(messages, inputs)
    ensures Sound(messages, StateAfter(messageId, inputs), Stream(messageId, inputs))
  {
    if inputs == [] {
      InitialSound(messages, messageId);
      assert Stream(messageId, inputs) == InitialEvents(messageId);
    } else {
      var n := |inputs| - 1;
      DriveSound(messages, messageId, inputs[..n]);
      StreamGrows(messageId, inputs);
      var b, es := StateAfter(messageId, inputs[..n]), Stream(messageId, inputs[..n]);
      if b.terminal {
        assert es + [] == es;
      } else {
        assert InputIds(messages, inputs[n]);
        ConsumeSound(messages, b, es, inputs[n]);
      }
    }
  }

  /**
    Under any order and duplication of notifications, an item is added at most once and done at
    most once, and every other event about it comes after the one and before the other.
   */
  lemma ItemLifecycle(messages: set<string>, messageId: string, inputs: seq<Input>, id: string)
    requires messageId != "" && messageId in messages && AllIds(messages, inputs)
    ensures WellOrdered(Stream(messageId, inputs), id)
  {
    DriveSound(messages, messageId, inputs);
    var es, b := Stream(messageId, inputs), StateAfter(messageId, inputs);
    assert PhaseOf(es, id) == Expected(b, id);
    PhaseMeaning(es, id);
  }
}
