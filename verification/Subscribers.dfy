/**
  The queues that fan a response's events out, and the object that holds them while the response
  is being produced.  A queue is the sequence of what was put into it; `None` is the end marker.
 */
module Subscribers {
  import opened Prelude
  import opened ResponseTranslation
  import opened ResponseBuilders

  datatype Hub = Hub(terminal: bool, subscribers: set<nat>, queues: map<nat, seq<Option<Sent>>>)

  function Wrap(events: seq<Sent>): (r: seq<Option<Sent>>)
    ensures |r| == |events| && forall k :: 0 <= k < |r| ==> r[k] == Some(events[k])
  {
    seq(|events|, k requires 0 <= k < |events| => Some(events[k]))
  }

  /** A subscriber that comes after the end finds just the end marker. */
  function Join(h: Hub, q: nat): Hub {
    if h.terminal then h.(queues := h.queues[q := [None]])
    else h.(queues := h.queues[q := []], subscribers := h.subscribers + {q})
  }

  function Leave(h: Hub, q: nat): Hub {
    h.(subscribers := h.subscribers - {q})
  }

  function PutAll(queues: map<nat, seq<Option<Sent>>>, to: set<nat>, values: seq<Option<Sent>>)
    : map<nat, seq<Option<Sent>>>
  {
    map q | q in queues :: if q in to then queues[q] + values else queues[q]
  }

  lemma PutNothing(queues: map<nat, seq<Option<Sent>>>, to: set<nat>)
    ensures PutAll(queues, to, []) == queues
  {
    forall q | q in queues ensures PutAll(queues, to, [])[q] == queues[q] {
      assert queues[q] + [] == queues[q];
    }
  }

  lemma PutTwice<T>(queue: seq<T>, a: seq<T>, b: seq<T>)
    ensures queue + a + b == queue + (a + b)
  {
  }

  lemma PutMore(queues: map<nat, seq<Option<Sent>>>, to: set<nat>, a: seq<Option<Sent>>, b: seq<Option<Sent>>)
    ensures PutAll(PutAll(queues, to, a), to, b) == PutAll(queues, to, a + b)
  {
    var once, both := PutAll(queues, to, a), PutAll(queues, to, a + b);
    var twice := PutAll(once, to, b);
    forall q | q in queues ensures twice[q] == both[q] {
      if q in to {
        PutTwice(queues[q], a, b);
      }
    }
  }

  function Publish(h: Hub, events: seq<Sent>): Hub {
    h.(queues := PutAll(h.queues, h.subscribers, Wrap(events)))
  }

  function CloseAll(h: Hub): Hub {
    Hub(true, {}, PutAll(h.queues, h.subscribers, [None]))
  }

  class ActiveExecution {
    var terminal: bool
    var subscribers: set<nat>
    var queues: map<nat, seq<Option<Sent>>>

    constructor ()
      ensures Current() == Hub(false, {}, map[])
    {
      terminal, subscribers, queues := false, {}, map[];
    }

    function Current(): Hub
      reads this
    {
      Hub(terminal, subscribers, queues)
    }

    ghost predicate Valid()
      reads this
    {
      subscribers <= queues.Keys
    }

    method Subscribe(q: nat)
      requires Valid() && q !in queues
      modifies this
      ensures Valid() && Current() == Join(old(Current()), q)
    {
      var queue := [];
      if terminal {
        queue := queue + [None];
        assert queue == [None];
      } else {
        subscribers := subscribers + {q};
      }
      queues := queues[q := queue];
    }

    method Unsubscribe(q: nat)
      requires Valid()
      modifies this
      ensures Valid() && Current() == Leave(old(Current()), q)
    {
      subscribers := subscribers - {q};
    }

    /** Puts one value into the queue of each subscriber that was present at the start. */
    method PutEach(to: set<nat>, value: Option<Sent>)
      requires to <= queues.Keys
      modifies this`queues
      ensures queues == PutAll(old(queues), to, [value])
    {
      var todo := to;
      while todo != {}
        invariant todo <= to && queues.Keys == old(queues).Keys
        invariant forall q :: q in queues ==>
                    queues[q] == if q in to && q !in todo then old(queues)[q] + [value] else old(queues)[q]
        decreases |todo|
      {
        var q :| q in todo;
        queues := queues[q := queues[q] + [value]];
        todo := todo - {q};
      }
    }

    method PublishEvents(events: seq<Sent>)
      requires Valid()
      modifies this
      ensures Valid() && Current() == Publish(old(Current()), events)
    {
      PutNothing(queues, subscribers);
      assert |events| == 0 ==> Wrap(events) == [];
      if |events| == 0 {
        return;
      }
      var to := subscribers;
      assert Wrap(events[..0]) == [];
      for k := 0 to |events|
        invariant terminal == old(terminal) && subscribers == old(subscribers) == to
        invariant queues == PutAll(old(queues), to, Wrap(events[..k]))
      {
        PutMore(old(queues), to, Wrap(events[..k]), [Some(events[k])]);
        PutEach(to, Some(events[k]));
        assert Wrap(events[..k + 1]) == Wrap(events[..k]) + [Some(events[k])];
      }
      assert events[..|events|] == events;
    }

    method FinishAll()
      requires Valid()
      modifies this
      ensures Valid() && Current() == CloseAll(old(Current()))
    {
      var to := subscribers;
      subscribers := {};
      terminal := true;
      PutEach(to, None);
    }
  }
}

/** The driver publishes what its builder emits, while subscribers come and go. */
module SubscriberStream {
  import opened Prelude
  import opened ResponseTranslation
  import opened ResponseBuilders
  import opened ResponseEnding
  import opened Subscribers

  datatype Phase = Preparing | Subscribed | Driving | Closed

  datatype World = World(
    hub: Hub,
    phase: Phase,
    mine: nat,                  // the queue handed to the creator of the response
    inputs: seq<Input>,         // consumed so far
    sent: seq<Sent>,            // published so far
    joined: map<nat, nat>,      // how much had been published when a queue was made
    left: map<nat, nat>)        // how much had been published when it was detached by its owner

  datatype Step =
    | DoJoin(q: nat)
    | DoLeave(q: nat)
    | DoOwn(q: nat)
    | DoBegin
    | DoConsume(input: Input, more: seq<Sent>)
    | DoClose

  ghost predicate Init(w: World) {
    w.hub == Hub(false, {}, map[]) && w.phase == Preparing && w.inputs == []
    && w.sent == [] && w.joined == map[] && w.left == map[]
  }

  predicate Joins(w: World, w': World, q: nat) {
    && q !in w.hub.queues
    && w' == w.(hub := Join(w.hub, q), joined := w.joined[q := |w.sent|],
                phase := w'.phase, mine := w'.mine)
  }

  /** One step; every subscriber but the creator's may leave at any time. */
  ghost predicate Next(messageId: string, w: World, step: Step, w': World)
    requires messageId != ""
  {
    match step
    case DoJoin(q) => Joins(w, w', q) && w'.phase == w.phase && w'.mine == w.mine
    case DoLeave(q) =>
      && (w.phase == Preparing || q != w.mine)
      && w' == w.(hub := Leave(w.hub, q),
                  left := if q in w.hub.subscribers then w.left[q := |w.sent|] else w.left)
    case DoOwn(q) => w.phase == Preparing && Joins(w, w', q) && w'.phase == Subscribed && w'.mine == q
    case DoBegin =>
      && w.phase == Subscribed && Numbered(w'.sent, 0, InitialEvents(messageId))
      && w' == w.(hub := Publish(w.hub, w'.sent), phase := Driving, sent := w'.sent)
    case DoConsume(input, more) =>
      var b := StateAfter(messageId, w.inputs);
      && w.phase == Driving && !b.terminal && Numbered(more, |w.sent|, Consume(b, input).1)
      && w' == w.(hub := Publish(w.hub, more), inputs := w.inputs + [input], sent := w.sent + more)
    case DoClose =>
      && w.phase == Driving && StateAfter(messageId, w.inputs).terminal
      && w' == w.(hub := CloseAll(w.hub), phase := Closed)
  }

  // ---------------------------------------------------------------- invariant

  /** Between which of the published events a queue was attached. */
  predicate Bounded(w: World, q: nat) {
    && q in w.joined && w.joined[q] <= |w.sent|
    && (q in w.left ==> w.joined[q] <= w.left[q] <= |w.sent|)
  }

  /**
    What a queue holds: all that was published since it joined, up to where it left, and an end
    marker exactly if it stayed to the end or came after it.
   */
  predicate Holds(w: World, q: nat) {
    && Bounded(w, q) && q in w.hub.queues
    && (q in w.hub.subscribers <==> q !in w.left && w.phase != Closed)
    && w.hub.queues[q] ==
       if q in w.left then Wrap(w.sent[w.joined[q]..w.left[q]])
       else Wrap(w.sent[w.joined[q]..]) + (if w.phase == Closed then [None] else [])
  }

  ghost predicate AllHold(w: World) {
    && (forall q :: q in w.hub.queues ==> Holds(w, q))
    && w.hub.subscribers <= w.hub.queues.Keys && w.left.Keys <= w.hub.queues.Keys
  }

  ghost predicate Inv(messageId: string, w: World)
    requires messageId != ""
  {
    && AllHold(w)
    && w.hub.terminal == (w.phase == Closed)
    && (w.phase == Preparing || w.phase == Subscribed ==> w.sent == [] && w.inputs == [])
    && (w.phase == Driving || w.phase == Closed ==> Numbered(w.sent, 0, Stream(messageId, w.inputs)))
    && (w.phase == Subscribed || w.phase == Driving ==>
          w.mine in w.hub.subscribers && w.mine in w.joined && w.joined[w.mine] == 0)
    && (w.phase == Closed ==>
          && StateAfter(messageId, w.inputs).terminal && w.mine !in w.hub.subscribers
          && w.mine in w.hub.queues && w.hub.queues[w.mine] == Wrap(w.sent) + [None])
  }

  lemma WrapGrows(sent: seq<Sent>, more: seq<Sent>, from: nat)
    requires from <= |sent|
    ensures Wrap((sent + more)[from..]) == Wrap(sent[from..]) + Wrap(more)
  {
  }

  lemma SliceKept(sent: seq<Sent>, more: seq<Sent>, from: nat, to: nat)
    requires from <= to <= |sent|
    ensures (sent + more)[from..to] == sent[from..to]
  {
  }

  lemma PublishOne(w: World, w': World, more: seq<Sent>, q: nat)
    requires Holds(w, q) && w'.hub == Publish(w.hub, more) && w.phase != Closed && w'.phase != Closed
    requires w'.sent == w.sent + more && w'.joined == w.joined && w'.left == w.left
    ensures Holds(w', q)
  {
    if q in w.left {
      SliceKept(w.sent, more, w.joined[q], w.left[q]);
    } else {
      WrapGrows(w.sent, more, w.joined[q]);
      assert Wrap(w.sent[w.joined[q]..]) + [] == Wrap(w.sent[w.joined[q]..]);
    }
  }

  lemma PublishHolds(w: World, w': World, more: seq<Sent>)
    requires AllHold(w) && w'.hub == Publish(w.hub, more) && w.phase != Closed && w'.phase != Closed
    requires w'.sent == w.sent + more && w'.joined == w.joined && w'.left == w.left
    ensures AllHold(w')
  {
    forall q | q in w'.hub.queues ensures Holds(w', q) {
      PublishOne(w, w', more, q);
    }
  }

  lemma JoinHolds(w: World, w': World, q: nat)
    requires AllHold(w) && w.hub.terminal == (w.phase == Closed) && Joins(w, w', q)
    requires w'.phase == Closed <==> w.phase == Closed
    ensures AllHold(w')
  {
    assert w.sent[|w.sent|..] == [];
    forall c | c in w'.hub.queues ensures Holds(w', c) {
      if c != q {
        assert Holds(w, c);
      }
    }
  }

  lemma LeaveHolds(w: World, w': World, q: nat)
    requires AllHold(w) && w' == w.(hub := Leave(w.hub, q), left := w'.left)
    requires w'.left == if q in w.hub.subscribers then w.left[q := |w.sent|] else w.left
    ensures AllHold(w')
  {
    forall c | c in w'.hub.queues ensures Holds(w', c) {
      assert Holds(w, c);
      if c == q && q in w.hub.subscribers {
        assert w.sent[w.joined[q]..|w.sent|] == w.sent[w.joined[q]..];
      }
    }
  }

  lemma CloseHolds(w: World, w': World)
    requires AllHold(w) && w.phase != Closed && w' == w.(hub := CloseAll(w.hub), phase := Closed)
    ensures AllHold(w')
  {
    forall q | q in w'.hub.queues ensures Holds(w', q) {
      assert Holds(w, q);
    }
  }

  lemma BeginInv(messageId: string, w: World, w': World)
    requires messageId != "" && Inv(messageId, w) && Next(messageId, w, DoBegin, w')
    ensures Inv(messageId, w')
  {
    PublishHolds(w, w', w'.sent);
    assert InitialEvents(messageId) + Drive(Initial(messageId), []).1 == InitialEvents(messageId);
  }

  lemma ConsumeInv(messageId: string, w: World, input: Input, more: seq<Sent>, w': World)
    requires messageId != "" && Inv(messageId, w) && Next(messageId, w, DoConsume(input, more), w')
    ensures Inv(messageId, w')
  {
    PublishHolds(w, w', more);
    ConsumeNumbered(messageId, w.inputs, w.sent, input, more);
  }

  lemma ConsumeNumbered(messageId: string, inputs: seq<Input>, sent: seq<Sent>, input: Input, more: seq<Sent>)
    requires messageId != "" && !StateAfter(messageId, inputs).terminal
    requires Numbered(sent, 0, Stream(messageId, inputs))
    requires Numbered(more, |sent|, Consume(StateAfter(messageId, inputs), input).1)
    ensures Numbered(sent + more, 0, Stream(messageId, inputs + [input]))
  {
    ConsumeNext(messageId, inputs, input);
    NumberedConcat(sent, more, 0, Stream(messageId, inputs), Consume(StateAfter(messageId, inputs), input).1);
  }

  lemma CloseInv(messageId: string, w: World, w': World)
    requires messageId != "" && Inv(messageId, w) && Next(messageId, w, DoClose, w')
    ensures Inv(messageId, w')
  {
    CloseHolds(w, w');
    assert Holds(w, w.mine);
    assert w.sent[0..] == w.sent;
  }

  lemma NextInv(messageId: string, w: World, step: Step, w': World)
    requires messageId != "" && Inv(messageId, w) && Next(messageId, w, step, w')
    ensures Inv(messageId, w')
  {
    if step.DoJoin? || step.DoOwn? {
      JoinHolds(w, w', step.q);
    } else if step.DoLeave? {
      LeaveHolds(w, w', step.q);
    } else if step.DoBegin? {
      BeginInv(messageId, w, w');
    } else if step.DoConsume? {
      ConsumeInv(messageId, w, step.input, step.more, w');
    } else {
      CloseInv(messageId, w, w');
    }
  }

  // ---------------------------------------------------------------- runs

  datatype Run = Run(messageId: string, worlds: seq<World>, steps: seq<Step>) {
    ghost predicate StepAt(i: nat)
      requires messageId != "" && |worlds| == |steps| + 1
    {
      i < |steps| && Next(messageId, worlds[i], steps[i], worlds[i + 1])
    }

    ghost predicate Valid() {
      && messageId != "" && |worlds| == |steps| + 1 && Init(worlds[0])
      && forall i: nat {:trigger StepAt(i)} :: i < |steps| ==> StepAt(i)
    }
  }

  lemma StepInv(run: Run, i: nat)
    requires run.Valid() && i < |run.steps| && Inv(run.messageId, run.worlds[i])
    ensures Inv(run.messageId, run.worlds[i + 1])
  {
    assert run.StepAt(i);
    NextInv(run.messageId, run.worlds[i], run.steps[i], run.worlds[i + 1]);
  }

  lemma {:induction false} RunInv(run: Run, i: nat)
    requires run.Valid() && i < |run.worlds|
    ensures Inv(run.messageId, run.worlds[i])
  {
    if i > 0 {
      RunInv(run, i - 1);
      StepInv(run, i - 1);
    }
  }

  /** While the response is produced, the creator's queue holds the whole stream so far. */
  lemma CreatorSeesEverything(run: Run, i: nat)
    requires run.Valid() && i < |run.worlds| && run.worlds[i].phase == Driving
    ensures var w := run.worlds[i];
            && w.mine in w.hub.queues && w.hub.queues[w.mine] == Wrap(w.sent)
            && Numbered(w.sent, 0, Stream(run.messageId, w.inputs))
  {
    RunInv(run, i);
    assert Holds(run.worlds[i], run.worlds[i].mine);
    assert run.worlds[i].sent[0..] == run.worlds[i].sent;
  }

  /**
    Once the response is closed, the creator's queue holds the whole stream numbered 0, 1, 2, ...,
    the last event and no other is terminal, one end marker follows, and that is all for good.
   */
  lemma CreatorStreamIsComplete(run: Run, i: nat, j: nat)
    requires run.Valid() && i <= j < |run.worlds| && run.worlds[i].phase == Closed
    ensures var w, es := run.worlds[j], Stream(run.messageId, run.worlds[i].inputs);
            && w.mine == run.worlds[i].mine && w.mine in w.hub.queues
            && w.hub.queues[w.mine] == Wrap(w.sent) + [None]
            && Numbered(w.sent, 0, es)
            && es != [] && es[|es| - 1].Finished? && Quiet(es[..|es| - 1])
  {
    ClosedForGood(run, i, j);
    RunInv(run, j);
    OneTerminalEvent(run.messageId, run.worlds[i].inputs);
  }

  lemma {:induction false} ClosedForGood(run: Run, i: nat, j: nat)
    requires run.Valid() && i <= j < |run.worlds| && run.worlds[i].phase == Closed
    ensures run.worlds[j].phase == Closed && run.worlds[j].mine == run.worlds[i].mine
    ensures run.worlds[j].inputs == run.worlds[i].inputs && run.worlds[j].sent == run.worlds[i].sent
    decreases j - i
  {
    if i < j {
      assert run.StepAt(i);
      ClosedForGood(run, i + 1, j);
    }
  }

  /** Others see a contiguous end of the stream so far, from where they joined. */
  lemma OthersSeeASuffix(run: Run, i: nat, q: nat)
    requires run.Valid() && i < |run.worlds| && q in run.worlds[i].hub.subscribers
    ensures var w := run.worlds[i];
            && q in w.hub.queues && q in w.joined && w.joined[q] <= |w.sent|
            && w.hub.queues[q] == Wrap(w.sent[w.joined[q]..])
  {
    RunInv(run, i);
    assert Holds(run.worlds[i], q);
  }

  /**
    Any queue, at any time, holds exactly what was published while it was attached.  It ends with
    an end marker exactly if the response is closed and the queue had not been detached before; one
    that joins after the end holds the end marker alone.
   */
  lemma QueueStory(run: Run, i: nat, q: nat)
    requires run.Valid() && i < |run.worlds| && q in run.worlds[i].hub.queues
    ensures var w := run.worlds[i];
            && q in w.joined && w.joined[q] <= |w.sent|
            && if q in w.left then
                 w.joined[q] <= w.left[q] <= |w.sent| && w.hub.queues[q] == Wrap(w.sent[w.joined[q]..w.left[q]])
               else
                 w.hub.queues[q] == Wrap(w.sent[w.joined[q]..]) + (if w.phase == Closed then [None] else [])
    ensures var w := run.worlds[i];
            w.phase == Closed && q !in w.left && w.joined[q] == |w.sent| ==> w.hub.queues[q] == [None]
  {
    RunInv(run, i);
    var w := run.worlds[i];
    assert Holds(w, q);
    assert w.sent[|w.sent|..] == [];
  }

  /** Where a queue joined and left is remembered as it was, and a detached queue gets nothing more. */
  predicate Remembers(w: World, w': World, q: nat) {
    && q in w.joined && q in w'.joined && w'.joined[q] == w.joined[q] && q in w'.hub.queues && q in w.hub.queues
    && (q in w.left ==> q in w'.left && w'.left[q] == w.left[q] && w'.hub.queues[q] == w.hub.queues[q])
  }

  lemma NextRemembers(messageId: string, w: World, step: Step, w': World, q: nat)
    requires messageId != "" && Next(messageId, w, step, w') && Holds(w, q)
    ensures Remembers(w, w', q)
  {
  }

  lemma StepRemembers(run: Run, i: nat, q: nat)
    requires run.Valid() && i < |run.steps| && q in run.worlds[i].hub.queues
    ensures Remembers(run.worlds[i], run.worlds[i + 1], q)
  {
    RunInv(run, i);
    assert Holds(run.worlds[i], q);
    assert run.StepAt(i);
    NextRemembers(run.messageId, run.worlds[i], run.steps[i], run.worlds[i + 1], q);
  }

  lemma {:induction false} HistoryStays(run: Run, i: nat, j: nat, q: nat)
    requires run.Valid() && i <= j < |run.worlds| && q in run.worlds[i].hub.queues
    ensures Remembers(run.worlds[i], run.worlds[j], q)
    decreases j - i
  {
    if i < j {
      StepRemembers(run, i, q);
      HistoryStays(run, i + 1, j, q);
    } else {
      QueueStory(run, i, q);
    }
  }
}
