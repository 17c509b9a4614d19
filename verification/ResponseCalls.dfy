/**
  The story of each tool call: which events a stream has about it, and what its item shows, told
  from the notifications alone.
 */
module ResponseCalls {
  import opened Prelude
  import opened ResponseTranslation
  import opened ResponseInvariant
  import opened ResponseLifecycle
  import opened ResponseTheorems

  // ---------------------------------------------------------------- what the notifications say

  /** A call is mentioned when it starts, when it completes, and by the end of the turn that lists it. */
  datatype Mention = Mention(call: Source, completed: bool)

  function EntryMentions(entries: seq<Entry>): seq<Mention> {
    if entries == [] then []
    else
      var n := |entries| - 1;
      EntryMentions(entries[..n]) + if entries[n].CallEntry? then [Mention(entries[n].call, true)] else []
  }

  function MentionsIn(input: Input): seq<Mention> {
    if !input.Notify? then []
    else match input.n
      case ItemStarted(call) => [Mention(call, false)]
      case CallCompleted(call) => [Mention(call, true)]
      case TurnEnded(turn) => EntryMentions(turn.entries)
      case _ => []
  }

  /** The mentions that a builder reads before its stream ends. */
  function Mentions(messageId: string, inputs: seq<Input>): seq<Mention>
    requires messageId != ""
  {
    if inputs == [] then []
    else
      var n := |inputs| - 1;
      Mentions(messageId, inputs[..n])
      + if StateAfter(messageId, inputs[..n]).terminal then [] else MentionsIn(inputs[n])
  }

  /** The first mention of a call, and the first that says it is completed. */
  function First(ms: seq<Mention>, id: string, completed: bool): Option<Source> {
    if ms == [] then None
    else
      var n := |ms| - 1;
      Or(First(ms[..n], id, completed), ms[n], id, completed)
  }

  function Or(earlier: Option<Source>, m: Mention, id: string, completed: bool): Option<Source> {
    if earlier.Some? then earlier
    else if m.call.id == id && (completed ==> m.completed) then Some(m.call)
    else None
  }

  // ---------------------------------------------------------------- the story

  function StartedItem(s: Source): Item {
    CallItem(s.id, match s.failure case Some(_) => Failed case None => InProgress,
             if s.server == "" then None else Some(s.server), if s.tool == "" then None else Some(s.tool),
             s.arguments, None, s.failure)
  }

  /** A completed call has failed exactly if its notification carries a failure. */
  function CompletedItem(s: Source): Item {
    CallItem(s.id, match s.failure case Some(_) => Failed case None => Completed,
             if s.server == "" then None else Some(s.server), if s.tool == "" then None else Some(s.tool),
             s.arguments, s.result, s.failure)
  }

  function Opening(s: Source, k: nat): seq<Event> {
    [ItemAdded(k, StartedItem(s)), ArgumentsDone(s.id, k, s.arguments), CallRunning(s.id, k)]
  }

  function Closing(s: Source, k: nat): seq<Event> {
    [match s.failure case Some(_) => CallFailed(s.id, k) case None => CallSucceeded(s.id, k),
     ItemDone(k, CompletedItem(s))]
  }

  function Story(first: Option<Source>, done: Option<Source>, k: nat): seq<Event> {
    (if first.Some? then Opening(first.value, k) else []) + (if done.Some? then Closing(done.value, k) else [])
  }

  function Pick(e: Event, id: string): seq<Event> {
    if About(e, id) then [e] else []
  }

  /** The events of a stream about one item. */
  function EventsAbout(es: seq<Event>, id: string): seq<Event> {
    if es == [] then [] else EventsAbout(es[..|es| - 1], id) + Pick(es[|es| - 1], id)
  }

  lemma AboutNext(es: seq<Event>, e: Event, id: string)
    ensures EventsAbout(es + [e], id) == EventsAbout(es, id) + Pick(e, id)
  {
    assert (es + [e])[..|es|] == es;
  }

  lemma Assoc(a: seq<Event>, b: seq<Event>, c: seq<Event>)
    ensures (a + b) + c == a + (b + c)
  {
  }

  lemma {:induction false} AboutConcat(a: seq<Event>, b: seq<Event>, id: string)
    ensures EventsAbout(a + b, id) == EventsAbout(a, id) + EventsAbout(b, id)
  {
    if b == [] {
      assert a + b == a;
    } else {
      var front, last := b[..|b| - 1], b[|b| - 1];
      assert b == front + [last];
      AboutConcat(a, front, id);
      AboutNext(front, last, id);
      AboutNext(a + front, last, id);
      Assoc(a, front, [last]);
      Assoc(EventsAbout(a, id), EventsAbout(front, id), Pick(last, id));
    }
  }

  lemma AboutOne(e: Event, id: string)
    ensures EventsAbout([e], id) == Pick(e, id)
  {
    assert [e][..0] == [];
  }

  lemma AboutTwo(e: Event, f: Event, id: string)
    ensures EventsAbout([e, f], id) == Pick(e, id) + Pick(f, id)
  {
    AboutOne(e, id);
    AboutOne(f, id);
    assert [e, f] == [e] + [f];
    AboutConcat([e], [f], id);
  }

  lemma AboutThree(e: Event, f: Event, g: Event, id: string)
    ensures EventsAbout([e, f, g], id) == Pick(e, id) + Pick(f, id) + Pick(g, id)
  {
    AboutTwo(e, f, id);
    AboutOne(g, id);
    assert [e, f, g] == [e, f] + [g];
    AboutConcat([e, f], [g], id);
  }

  // ---------------------------------------------------------------- the invariant

  /** The record and the events tell the story of `id` as it is after these mentions. */
  predicate Told(b: State, es: seq<Event>, first: Option<Source>, done: Option<Source>, id: string) {
    && (first.Some? <==> id in b.indexes) && (done.Some? <==> id in b.completedCalls)
    && (done.Some? ==> first.Some? && done.value.id == id) && (first.Some? ==> first.value.id == id)
    && if id in b.indexes then
         && b.indexes[id] < |b.items|
         && b.items[b.indexes[id]] == (if done.Some? then CompletedItem(done.value) else StartedItem(first.value))
         && es == Story(first, done, b.indexes[id])
       else es == []
  }

  /** What a step on another item leaves of this one. */
  predicate Aside(b: State, b': State, more: seq<Event>, id: string) {
    && (id in b.indexes <==> id in b'.indexes) && (id in b.completedCalls <==> id in b'.completedCalls)
    && (id in b.indexes ==>
          && b'.indexes[id] == b.indexes[id] && b.indexes[id] < |b.items| && b.indexes[id] < |b'.items|
          && b'.items[b.indexes[id]] == b.items[b.indexes[id]])
    && EventsAbout(more, id) == []
  }

  lemma AsideTells(b: State, b': State, more: seq<Event>, es: seq<Event>, first: Option<Source>,
                   done: Option<Source>, id: string)
    requires Told(b, es, first, done, id) && Aside(b, b', more, id)
    ensures Told(b', es, first, done, id) && es + EventsAbout(more, id) == es
  {
  }

  lemma AsideThen(b: State, b1: State, b2: State, first: seq<Event>, second: seq<Event>, id: string)
    requires Aside(b, b1, first, id) && Aside(b1, b2, second, id)
    ensures Aside(b, b2, first + second, id)
  {
    AboutConcat(first, second, id);
  }

  lemma NothingAside(b: State, id: string)
    requires Indexed(b)
    ensures Aside(b, b, [], id)
  {
  }

  // ---------------------------------------------------------------- steps about calls

  lemma PutAside(b: State, item: Item, id: string)
    requires Indexed(b) && item.id != id
    ensures var b' := AddItem(b, item).0; Aside(b, b', [], id) && b'.completedCalls == b.completedCalls
  {
  }

  lemma StartNew(b: State, call: Source, first: Option<Source>, done: Option<Source>, es: seq<Event>)
    requires Indexed(b) && call.id != "" && call.id !in b.indexes && Told(b, es, first, done, call.id)
    ensures var (b', more) := StartCall(b, call);
            && EventsAbout(more, call.id) == Opening(call, |b.items|)
            && Told(b', Opening(call, |b.items|), Some(call), None, call.id)
  {
    var more := StartCall(b, call).1;
    AboutThree(more[0], more[1], more[2], call.id);
  }

  lemma OpeningAside(s: Source, item: Item, k: nat, id: string)
    requires s.id != id && item.id == s.id && item.CallItem?
    ensures EventsAbout([ItemAdded(k, item), ArgumentsDone(s.id, k, item.arguments), CallRunning(s.id, k)], id) == []
  {
    AboutThree(ItemAdded(k, item), ArgumentsDone(s.id, k, item.arguments), CallRunning(s.id, k), id);
  }

  lemma StartAside(b: State, call: Source, id: string)
    requires Indexed(b) && call.id != id
    ensures var (b', more) := StartCall(b, call); Aside(b, b', more, id)
  {
    if call.id == "" || call.id in b.indexes {
      NothingAside(b, id);
    } else {
      PutAside(b, CallItemOf(call, false), id);
      OpeningAside(call, CallItemOf(call, false), AddItem(b, CallItemOf(call, false)).1, id);
    }
  }

  lemma StartTells(b: State, call: Source, es: seq<Event>, first: Option<Source>, done: Option<Source>, id: string)
    requires Indexed(b) && id != "" && Told(b, es, first, done, id)
    ensures var (b', more) := StartCall(b, call);
            Told(b', es + EventsAbout(more, id), Or(first, Mention(call, false), id, false), done, id)
  {
    var (b', more) := StartCall(b, call);
    if call.id != id {
      StartAside(b, call, id);
      AsideTells(b, b', more, es, first, done, id);
    } else if id in b.indexes {
      assert es + EventsAbout(more, id) == es;
    } else {
      StartNew(b, call, first, done, es);
      assert es + EventsAbout(more, id) == EventsAbout(more, id);
    }
  }

  /** The second half of a completion: the item is replaced and two events tell its end. */
  function ReportEnd(b: State, call: Source): (State, seq<Event>) {
    var item := CallItemOf(call, true);
    var (b1, k) := AddItem(b, item);
    (b1.(completedCalls := b1.completedCalls + {call.id}),
     [if item.status == Failed then CallFailed(call.id, k) else CallSucceeded(call.id, k), ItemDone(k, item)])
  }

  lemma CompleteSplits(b: State, call: Source)
    requires call.id != "" && call.id !in b.completedCalls
    ensures var (b1, started) := StartCall(b, call);
            var (b2, end) := ReportEnd(b1, call);
            CompleteCall(b, call) == (b2, started + end)
  {
  }

  lemma ReportTells(b: State, call: Source, es: seq<Event>, first: Option<Source>)
    requires Indexed(b) && call.id in b.indexes && Told(b, es, first, None, call.id)
    ensures var (b', end) := ReportEnd(b, call);
            Told(b', es + EventsAbout(end, call.id), first, Some(call), call.id)
  {
    var end := ReportEnd(b, call).1;
    AboutTwo(end[0], end[1], call.id);
    assert EventsAbout(end, call.id) == Closing(call, b.indexes[call.id]);
  }

  lemma ReportAside(b: State, call: Source, id: string)
    requires Indexed(b) && call.id != id
    ensures var (b', end) := ReportEnd(b, call); Aside(b, b', end, id)
  {
    var end := ReportEnd(b, call).1;
    AboutTwo(end[0], end[1], id);
    PutAside(b, CallItemOf(call, true), id);
  }

  lemma CompleteAside(b: State, call: Source, id: string)
    requires Indexed(b) && call.id != id
    ensures var (b', more) := CompleteCall(b, call); Aside(b, b', more, id)
  {
    if call.id == "" || call.id in b.completedCalls {
      NothingAside(b, id);
    } else {
      var (b1, started) := StartCall(b, call);
      CompleteSplits(b, call);
      StartAside(b, call, id);
      AddItemValid(b, CallItemOf(call, false));
      ReportAside(b1, call, id);
      AsideThen(b, b1, ReportEnd(b1, call).0, started, ReportEnd(b1, call).1, id);
    }
  }

  /** The first completion of the call: whatever of its beginning is missing, then its end. */
  lemma EndTells(b: State, call: Source, es: seq<Event>, first: Option<Source>)
    requires Indexed(b) && call.id != "" && call.id !in b.completedCalls && Told(b, es, first, None, call.id)
    ensures var (b', more) := CompleteCall(b, call);
            Told(b', es + EventsAbout(more, call.id), Or(first, Mention(call, false), call.id, false),
                 Some(call), call.id)
  {
    var (b1, started) := StartCall(b, call);
    var end := ReportEnd(b1, call).1;
    CompleteSplits(b, call);
    StartTells(b, call, es, first, None, call.id);
    AddItemValid(b, CallItemOf(call, false));
    ReportTells(b1, call, es + EventsAbout(started, call.id), Or(first, Mention(call, false), call.id, false));
    MoreAbout(es, started, end, call.id);
  }

  lemma CompleteTells(b: State, call: Source, es: seq<Event>, first: Option<Source>, done: Option<Source>, id: string)
    requires Indexed(b) && id != "" && Told(b, es, first, done, id)
    ensures var (b', more) := CompleteCall(b, call);
            Told(b', es + EventsAbout(more, id), Or(first, Mention(call, true), id, false),
                 Or(done, Mention(call, true), id, true), id)
  {
    var (b', more) := CompleteCall(b, call);
    if call.id != id {
      CompleteAside(b, call, id);
      AsideTells(b, b', more, es, first, done, id);
    } else if id in b.completedCalls {
      assert es + EventsAbout(more, id) == es;
    } else {
      EndTells(b, call, es, first);
    }
  }

  // ---------------------------------------------------------------- steps about the message

  /** The id is not the message's, now or after a message with this id has started. */
  predicate NotMessage(b: State, itemId: string, id: string) {
    b.messageId != id && itemId != id
  }

  lemma SyncAside(b: State, id: string)
    requires Indexed(b) && b.messageId != id
    ensures Aside(b, SyncMessage(b), [], id) && SyncMessage(b).messageId == b.messageId
  {
    if b.messageStarted {
      PutAside(b, Message(b), id);
    } else {
      NothingAside(b, id);
    }
  }

  lemma StartMessageAside(b: State, itemId: string, id: string)
    requires Indexed(b) && NotMessage(b, itemId, id)
    ensures var (b', more) := StartMessage(b, itemId); Aside(b, b', more, id) && b'.messageId != id
  {
    var more := StartMessage(b, itemId).1;
    if more == [] {
      NothingAside(b, id);
    } else {
      var b1 := b.(messageId := if itemId == "" then b.messageId else itemId, messageStarted := true);
      PutAside(b1, Message(b1), id);
      AboutTwo(more[0], more[1], id);
    }
  }

  lemma TextAside(b: State, text: string, id: string)
    requires Indexed(b) && b.messageId != id
    ensures var b' := SyncMessage(b.(text := text));
            && Aside(b, b', [], id)
            && forall at: nat, delta: string :: EventsAbout([TextDelta(b'.messageId, at, delta)], id) == []
  {
    SyncAside(b.(text := text), id);
    var b' := SyncMessage(b.(text := text));
    forall at: nat, delta: string ensures EventsAbout([TextDelta(b'.messageId, at, delta)], id) == [] {
      AboutOne(TextDelta(b'.messageId, at, delta), id);
    }
  }

  lemma AppendTextAside(b: State, delta: string, itemId: string, id: string)
    requires Valid(b) && NotMessage(b, itemId, id)
    ensures var (b', more) := AppendText(b, delta, itemId); Aside(b, b', more, id) && b'.messageId != id
  {
    var (b1, started) := StartMessage(b, itemId);
    StartMessageAside(b, itemId, id);
    StartMessageValid(b, itemId);
    TextAside(b1, b1.text + delta, id);
    SyncAside(b1.(text := b1.text + delta), id);
    var (b', more) := AppendText(b, delta, itemId);
    var e := TextDelta(b'.messageId, MessageIndexOrZero(b'), delta);
    assert EventsAbout([e], id) == [];
    AsideThen(b, b1, b', started, [e], id);
  }

  lemma SyncCompletedAside(b: State, text: string, itemId: string, id: string)
    requires Valid(b) && NotMessage(b, itemId, id)
    ensures var (b', more) := SyncCompleted(b, text, itemId); Aside(b, b', more, id) && b'.messageId != id
  {
    var (b1, started) := StartMessage(b, itemId);
    StartMessageAside(b, itemId, id);
    if text == "" || text == b.text {
      SyncNothing(b, text, itemId);
    } else if Extends(text, b.text) {
      SyncMissing(b, text, itemId);
      AppendTextAside(b, text[|b.text|..], itemId, id);
    } else {
      SyncReplaces(b, text, itemId);
      StartMessageValid(b, itemId);
      SyncAside(b1.(text := text), id);
      AsideThen(b, b1, SyncMessage(b1.(text := text)), started, [], id);
      assert started + [] == started;
    }
  }

  lemma FinishMessageAside(b: State, id: string)
    requires Valid(b) && b.messageId != id
    ensures var (b', more) := FinishMessage(b); Aside(b, b', more, id) && b'.messageId != id
  {
    if !b.messageStarted || b.messageCompleted {
      NothingAside(b, id);
    } else {
      SyncAside(b.(messageCompleted := true), id);
      var b1 := SyncMessage(b.(messageCompleted := true));
      DoneAside(b1, MessageIndexOrZero(b1), id);
    }
  }

  lemma DoneAside(b: State, k: nat, id: string)
    requires b.messageId != id
    ensures EventsAbout([TextDone(b.messageId, k, b.text), PartDone(b.messageId, k, b.text), ItemDone(k, Message(b))],
                        id) == []
  {
    AboutThree(TextDone(b.messageId, k, b.text), PartDone(b.messageId, k, b.text), ItemDone(k, Message(b)), id);
  }

  /** The record's outcome and the terminal event are about no item. */
  lemma OutcomeAside(b: State, b1: State, id: string)
    requires Indexed(b) && b.messageId != id
    requires b1 == b.(terminal := b1.terminal, status := b1.status, error := b1.error,
                      reason := b1.reason, usage := b1.usage)
    ensures Aside(b, Snapshot(b1).0, [Finished(Snapshot(b1).1)], id)
  {
    SyncAside(b1, id);
    AboutOne(Finished(Snapshot(b1).1), id);
  }

  lemma FinishAside(b: State, status: ResponseStatus, error: Option<Failure>, reason: Option<Reason>, id: string)
    requires Valid(b) && b.messageId != id
    ensures var (b', more) := Finish(b, status, error, reason); Aside(b, b', more, id)
  {
    var (b1, done) := FinishMessage(b);
    FinishMessageAside(b, id);
    FinishMessageValid(b);
    var b2 := b1.(status := status, error := error, reason := reason, terminal := true);
    OutcomeAside(b1, b2, id);
    AsideThen(b, b1, Snapshot(b2).0, done, [Finished(Snapshot(b2).1)], id);
  }

  lemma EndTurnAside(b: State, turn: Turn, id: string)
    requires Valid(b) && b.messageId != id
    ensures var (b', more) := EndTurn(b, turn); Aside(b, b', more, id)
  {
    var (b1, done) := FinishMessage(b);
    FinishMessageAside(b, id);
    FinishMessageValid(b);
    var b2 := b1.(usage := turn.usage, status := TurnOutcome(turn.status), terminal := true,
                  reason := if turn.status == TurnInterrupted then Some(Cancelled) else b1.reason,
                  error := if turn.status == TurnOther then Some(Failure(TurnFailed, turn.error))
                           else b1.error);
    OutcomeAside(b1, b2, id);
    AsideThen(b, b1, Snapshot(b2).0, done, [Finished(Snapshot(b2).1)], id);
  }

  // ---------------------------------------------------------------- the end of a turn

  /** The mentions that follow, one after the other. */
  function OrAll(earlier: Option<Source>, ms: seq<Mention>, id: string, completed: bool): Option<Source> {
    if ms == [] then earlier
    else Or(OrAll(earlier, ms[..|ms| - 1], id, completed), ms[|ms| - 1], id, completed)
  }

  lemma {:induction false} FirstConcat(a: seq<Mention>, b: seq<Mention>, id: string, completed: bool)
    ensures First(a + b, id, completed) == OrAll(First(a, id, completed), b, id, completed)
  {
    if b == [] {
      assert a + b == a;
    } else {
      FirstConcat(a, b[..|b| - 1], id, completed);
      assert (a + b)[..|a + b| - 1] == a + b[..|b| - 1];
    }
  }

  lemma OrAllNext(earlier: Option<Source>, ms: seq<Mention>, m: Mention, id: string, completed: bool)
    ensures OrAll(earlier, ms + [m], id, completed) == Or(OrAll(earlier, ms, id, completed), m, id, completed)
    ensures OrAll(earlier, [m], id, completed) == Or(earlier, m, id, completed)
  {
    assert (ms + [m])[..|ms|] == ms;
    assert [m][..0] == [];
  }

  ghost predicate TellsAll(b: State, more: seq<Event>, es: seq<Event>, ms: seq<Mention>,
                           first: Option<Source>, done: Option<Source>, id: string) {
    Told(b, es + EventsAbout(more, id), OrAll(first, ms, id, false), OrAll(done, ms, id, true), id)
  }

  lemma MoreAbout(es: seq<Event>, a: seq<Event>, b: seq<Event>, id: string)
    ensures es + EventsAbout(a + b, id) == es + EventsAbout(a, id) + EventsAbout(b, id)
  {
    AboutConcat(a, b, id);
  }

  lemma CompleteKeepsMessage(b: State, call: Source)
    ensures CompleteCall(b, call).0.messageId == b.messageId
  {
  }

  lemma CallTells(b: State, call: Source, calls: seq<Event>, es: seq<Event>, ms: seq<Mention>,
                  first: Option<Source>, done: Option<Source>, id: string)
    requires Indexed(b) && id != "" && TellsAll(b, calls, es, ms, first, done, id)
    ensures var (b', more) := CompleteCall(b, call);
            TellsAll(b', calls + more, es, ms + [Mention(call, true)], first, done, id)
  {
    CompleteTells(b, call, es + EventsAbout(calls, id), OrAll(first, ms, id, false), OrAll(done, ms, id, true), id);
    MoreAbout(es, calls, CompleteCall(b, call).1, id);
    OrAllNext(first, ms, Mention(call, true), id, false);
    OrAllNext(done, ms, Mention(call, true), id, true);
  }

  lemma NoneTells(b: State, es: seq<Event>, first: Option<Source>, done: Option<Source>, id: string)
    requires Told(b, es, first, done, id)
    ensures TellsAll(b, [], es, [], first, done, id)
  {
    assert es + EventsAbout([], id) == es;
  }

  lemma {:induction false} CallsTell(b: State, entries: seq<Entry>, es: seq<Event>, first: Option<Source>,
                                     done: Option<Source>, id: string)
    requires Valid(b) && id != "" && Told(b, es, first, done, id)
    ensures var (b', more) := CompleteCalls(b, entries);
            Valid(b') && b'.messageId == b.messageId && TellsAll(b', more, es, EntryMentions(entries), first, done, id)
  {
    if entries == [] {
      NoneTells(b, es, first, done, id);
    } else {
      var n := |entries| - 1;
      CallsTell(b, entries[..n], es, first, done, id);
      var (b1, calls) := CompleteCalls(b, entries[..n]);
      var ms := EntryMentions(entries[..n]);
      if entries[n].CallEntry? {
        CallTells(b1, entries[n].call, calls, es, ms, first, done, id);
        CompleteCallValid(b1, entries[n].call);
        CompleteKeepsMessage(b1, entries[n].call);
      } else {
        assert ms + [] == ms;
      }
    }
  }

  lemma SyncFinalAside(b: State, entries: seq<Entry>, id: string)
    requires Valid(b) && NotMessage(b, LastMessage(entries).1, id)
    ensures var (b', more) := SyncFinal(b, entries); Aside(b, b', more, id) && b'.messageId != id
  {
    var (text, itemId) := LastMessage(entries);
    if text == "" {
      NothingAside(b, id);
    } else {
      SyncCompletedAside(b, text, itemId, id);
    }
  }

  lemma SyncFinalValid(b: State, entries: seq<Entry>)
    requires Valid(b)
    ensures Valid(SyncFinal(b, entries).0)
  {
    var (text, itemId) := LastMessage(entries);
    if text != "" {
      SyncCompletedValid(b, text, itemId);
    }
  }

  /** After its calls the end of a turn is about the message and the outcome. */
  lemma RestAside(b: State, turn: Turn, id: string)
    requires Valid(b) && NotMessage(b, LastMessage(turn.entries).1, id)
    ensures var (b1, text) := SyncFinal(b, turn.entries);
            var (b2, end) := EndTurn(b1, turn);
            Aside(b, b2, text + end, id)
  {
    var (b1, text) := SyncFinal(b, turn.entries);
    SyncFinalAside(b, turn.entries, id);
    SyncFinalValid(b, turn.entries);
    EndTurnAside(b1, turn, id);
    AsideThen(b, b1, EndTurn(b1, turn).0, text, EndTurn(b1, turn).1, id);
  }

  lemma AsideTellsAll(b: State, b': State, calls: seq<Event>, rest: seq<Event>, es: seq<Event>, ms: seq<Mention>,
                      first: Option<Source>, done: Option<Source>, id: string)
    requires TellsAll(b, calls, es, ms, first, done, id) && Aside(b, b', rest, id)
    ensures TellsAll(b', calls + rest, es, ms, first, done, id)
  {
    AsideTells(b, b', rest, es + EventsAbout(calls, id), OrAll(first, ms, id, false), OrAll(done, ms, id, true), id);
    MoreAbout(es, calls, rest, id);
  }

  lemma TurnTells(b: State, turn: Turn, es: seq<Event>, first: Option<Source>, done: Option<Source>, id: string)
    requires Valid(b) && !b.terminal && id != "" && Told(b, es, first, done, id)
    requires NotMessage(b, LastMessage(turn.entries).1, id)
    ensures var (b', more) := CompleteTurn(b, turn);
            TellsAll(b', more, es, EntryMentions(turn.entries), first, done, id)
  {
    var (b1, calls) := CompleteCalls(b, turn.entries);
    CallsTell(b, turn.entries, es, first, done, id);
    RestAside(b1, turn, id);
    var (b2, text) := SyncFinal(b1, turn.entries);
    var (b3, end) := EndTurn(b2, turn);
    AsideTellsAll(b1, b3, calls, text + end, es, EntryMentions(turn.entries), first, done, id);
    TurnSplits(b, turn);
  }

  lemma TurnSplits(b: State, turn: Turn)
    requires !b.terminal
    ensures var (b1, calls) := CompleteCalls(b, turn.entries);
            var (b2, text) := SyncFinal(b1, turn.entries);
            var (b3, end) := EndTurn(b2, turn);
            CompleteTurn(b, turn) == (b3, calls + (text + end))
  {
    var (b1, calls) := CompleteCalls(b, turn.entries);
    var (b2, text) := SyncFinal(b1, turn.entries);
    assert calls + text + EndTurn(b2, turn).1 == calls + (text + EndTurn(b2, turn).1);
  }

  // ---------------------------------------------------------------- whole runs

  lemma ConsumeTells(messages: set<string>, b: State, input: Input, es: seq<Event>, first: Option<Source>,
                     done: Option<Source>, id: string)
    requires Valid(b) && Separate(messages, b) && !b.terminal && InputIds(messages, input)
    requires id != "" && id !in messages && Told(b, es, first, done, id)
    ensures var (b', more) := Consume(b, input);
            TellsAll(b', more, es, MentionsIn(input), first, done, id)
  {
    if !input.Notify? {
      StopTells(b, input, es, first, done, id);
    } else if input.n.TurnEnded? {
      LastMessageId(messages, input.n.turn.entries);
      TurnTells(b, input.n.turn, es, first, done, id);
    } else if input.n.ItemStarted? {
      StartTells(b, input.n.call, es, first, done, id);
      OrAllNext(first, [], Mention(input.n.call, false), id, false);
      OrAllNext(done, [], Mention(input.n.call, false), id, true);
    } else if input.n.CallCompleted? {
      CompleteTells(b, input.n.call, es, first, done, id);
      OrAllNext(first, [], Mention(input.n.call, true), id, false);
      OrAllNext(done, [], Mention(input.n.call, true), id, true);
    } else {
      MessageTells(messages, b, input.n, es, first, done, id);
    }
  }

  lemma StopTells(b: State, input: Input, es: seq<Event>, first: Option<Source>, done: Option<Source>, id: string)
    requires Valid(b) && !b.terminal && b.messageId != id && Told(b, es, first, done, id) && !input.Notify?
    ensures var (b', more) := Consume(b, input); Told(b', es + EventsAbout(more, id), first, done, id)
  {
    match input {
      case Break(message) =>
        FinishAside(b, ResponseFailed, Some(Failure(ExecutionFailed, message)), b.reason, id);
      case Stop(reason) => FinishAside(b, ResponseIncomplete, b.error, Some(reason), id);
    }
    var (b', more) := Consume(b, input);
    AsideTells(b, b', more, es, first, done, id);
  }

  lemma MessageTells(messages: set<string>, b: State, n: Notification, es: seq<Event>, first: Option<Source>,
                     done: Option<Source>, id: string)
    requires Valid(b) && Separate(messages, b) && !b.terminal && InputIds(messages, Notify(n))
    requires id != "" && id !in messages && Told(b, es, first, done, id)
    requires n.MessageDelta? || n.MessageCompleted? || n.ErrorReported? || n.Ignored?
    ensures var (b', more) := Consume(b, Notify(n)); Told(b', es + EventsAbout(more, id), first, done, id)
  {
    NothingAside(b, id);
    if n.MessageDelta? {
      AppendTextAside(b, n.delta, n.itemId, id);
    } else if n.MessageCompleted? {
      SyncCompletedAside(b, n.text, n.itemId, id);
    } else if n.ErrorReported? {
      StopTells(b, Break(n.message), es, first, done, id);
      FinishAside(b, ResponseFailed, Some(Failure(ExecutionFailed, n.message)), b.reason, id);
    }
    var (b', more) := Consume(b, Notify(n));
    AsideTells(b, b', more, es, first, done, id);
  }

  /** The story that a run tells of a call. */
  ghost predicate RunTells(messageId: string, inputs: seq<Input>, id: string)
    requires messageId != ""
  {
    var ms := Mentions(messageId, inputs);
    Told(StateAfter(messageId, inputs), EventsAbout(Stream(messageId, inputs), id),
         First(ms, id, false), First(ms, id, true), id)
  }

  lemma NothingTold(messageId: string, id: string)
    requires messageId != "" && id != ""
    ensures RunTells(messageId, [], id)
  {
    var initial := InitialEvents(messageId);
    assert Stream(messageId, []) == initial;
    assert initial == [initial[0], initial[1]];
    AboutTwo(initial[0], initial[1], id);
  }

  lemma LastTells(messages: set<string>, messageId: string, inputs: seq<Input>, id: string)
    requires Named(messages, messageId, inputs) && inputs != [] && id != "" && id !in messages
    requires RunTells(messageId, inputs[..|inputs| - 1], id)
    ensures RunTells(messageId, inputs, id)
  {
    var n := |inputs| - 1;
    var b, es := StateAfter(messageId, inputs[..n]), Stream(messageId, inputs[..n]);
    var ms := Mentions(messageId, inputs[..n]);
    StreamGrows(messageId, inputs);
    StateGrows(messageId, inputs);
    if b.terminal {
      assert es + [] == es && ms + [] == ms;
    } else {
      DriveSound(messages, messageId, inputs[..n]);
      assert InputIds(messages, inputs[n]);
      ConsumeTells(messages, b, inputs[n], EventsAbout(es, id), First(ms, id, false), First(ms, id, true), id);
      AboutConcat(es, Consume(b, inputs[n]).1, id);
      FirstConcat(ms, MentionsIn(inputs[n]), id, false);
      FirstConcat(ms, MentionsIn(inputs[n]), id, true);
    }
  }

  lemma {:induction false} RunTellsStory(messages: set<string>, messageId: string, inputs: seq<Input>, id: string)
    requires Named(messages, messageId, inputs) && id != "" && id !in messages
    ensures RunTells(messageId, inputs, id)
  {
    if inputs == [] {
      NothingTold(messageId, id);
    } else {
      RunTellsStory(messages, messageId, inputs[..|inputs| - 1], id);
      LastTells(messages, messageId, inputs, id);
    }
  }

  /**
    The story of a call, told from the notifications alone.  Its events are, in this order: added,
    its arguments and in progress, all as its first mention says; then the outcome and done, as its
    first completion says, with the failure exactly if that carries one.  Its item is listed at
    the one position that the events name, and shows what was said last of these two.
   */
  lemma CallStory(messages: set<string>, messageId: string, inputs: seq<Input>, id: string)
    requires Named(messages, messageId, inputs) && id != "" && id !in messages
    ensures var ms := Mentions(messageId, inputs);
            var first, done := First(ms, id, false), First(ms, id, true);
            var b, told := StateAfter(messageId, inputs), EventsAbout(Stream(messageId, inputs), id);
            match first
            case None => done == None && told == [] && id !in b.indexes
            case Some(f) =>
              && id in b.indexes && b.indexes[id] < |b.items|
              && told == Story(first, done, b.indexes[id])
              && b.items[b.indexes[id]] == if done.Some? then CompletedItem(done.value) else StartedItem(f)
  {
    RunTellsStory(messages, messageId, inputs, id);
  }

  lemma {:induction false} InAbout(es: seq<Event>, e: Event, id: string)
    requires About(e, id)
    ensures e in EventsAbout(es, id) <==> e in es
  {
    if es != [] {
      var n := |es| - 1;
      InAbout(es[..n], e, id);
      assert es == es[..n] + [es[n]];
    }
  }

  lemma StoryOutcome(first: Option<Source>, done: Option<Source>, at: nat, id: string, k: nat)
    requires (first.Some? ==> first.value.id == id) && (done.Some? ==> first.Some? && done.value.id == id)
    ensures CallFailed(id, k) in Story(first, done, at) <==> done.Some? && done.value.failure.Some? && k == at
    ensures CallSucceeded(id, k) in Story(first, done, at) <==> done.Some? && done.value.failure.None? && k == at
  {
  }

  /** The outcome that the record shows for a call at position `k`. */
  predicate ShowsOutcome(b: State, id: string, k: nat, failed: bool) {
    && id in b.indexes && b.indexes[id] == k && k < |b.items| && b.items[k].CallItem?
    && (if failed then b.items[k].status == Failed && b.items[k].error.Some? else b.items[k].status == Completed)
  }

  /**
    In particular a failure is announced exactly when the first completion carries one, a success
    exactly when it carries none, never both, and the item shows the same.
   */
  lemma OutcomeIsTold(messages: set<string>, messageId: string, inputs: seq<Input>, id: string, k: nat)
    requires Named(messages, messageId, inputs) && id != "" && id !in messages
    ensures var done := First(Mentions(messageId, inputs), id, true);
            var b, es := StateAfter(messageId, inputs), Stream(messageId, inputs);
            && (CallFailed(id, k) in es <==>
                  done.Some? && done.value.failure.Some? && ShowsOutcome(b, id, k, true))
            && (CallSucceeded(id, k) in es <==>
                  done.Some? && done.value.failure.None? && ShowsOutcome(b, id, k, false))
  {
    var es, ms := Stream(messageId, inputs), Mentions(messageId, inputs);
    RunTellsStory(messages, messageId, inputs, id);
    InAbout(es, CallFailed(id, k), id);
    InAbout(es, CallSucceeded(id, k), id);
    OutcomeOfStory(StateAfter(messageId, inputs), EventsAbout(es, id), First(ms, id, false), First(ms, id, true),
                   id, k);
  }

  lemma OutcomeOfStory(b: State, told: seq<Event>, first: Option<Source>, done: Option<Source>, id: string, k: nat)
    requires Told(b, told, first, done, id)
    ensures CallFailed(id, k) in told <==> done.Some? && done.value.failure.Some? && ShowsOutcome(b, id, k, true)
    ensures CallSucceeded(id, k) in told <==> done.Some? && done.value.failure.None? && ShowsOutcome(b, id, k, false)
  {
    if id in b.indexes {
      StoryOutcome(first, done, b.indexes[id], id, k);
    }
  }
}
