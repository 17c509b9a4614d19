/**
  A driver that reads the Worker's log over a connection that may break at any time.  The log
  may evict events before they are read; the driver resumes from its cursor and checks for gaps.
 */
module EventDelivery {
  import opened Prelude
  import opened EventLogs

  /** A connection: how far the Worker has read its log for it, and what is in flight. */
  datatype Stream = Disconnected | Connected(position: int, pending: seq<Event>)

  datatype Outcome = Driving | GapReported | Ended

  datatype World = World(
    history: seq<Event>,
    capacity: nat,
    stream: Stream,
    start: int,               // the cursor taken before the turn started
    cursor: int,
    handled: seq<Event>,      // notifications given to the translator, in order
    outcome: Outcome)

  function Notifications(events: seq<Event>): seq<Event> {
    if events == [] then []
    else
      var rest := Notifications(events[..|events| - 1]);
      var last := events[|events| - 1];
      if last.kind == Notification then rest + [last] else rest
  }

  function LastId(pending: seq<Event>, cursor: int): int {
    if pending == [] then cursor else pending[|pending| - 1].id
  }

  /** The cursor is the id of the last event published when the execution was prepared. */
  ghost predicate Init(s: World) {
    && Numbered(s.history) && s.stream == Disconnected
    && s.start == s.cursor == |s.history| - 1 && s.handled == [] && s.outcome == Driving
  }

  predicate Publish(s: World, s': World, kind: EventKind, data: string) {
    s' == s.(history := s.history + [Event(|s.history|, kind, data)])
  }

  predicate Connect(s: World, s': World) {
    s.stream == Disconnected && s.outcome == Driving && s' == s.(stream := Connected(s.cursor, []))
  }

  /** The Worker sends what its log holds above the position of this stream. */
  predicate Fetch(s: World, s': World) {
    && s.stream.Connected?
    && var batch := Unread(s.history, s.capacity, s.stream.position);
    && s' == s.(stream := Connected(LastId(batch, s.stream.position), s.stream.pending + batch))
  }

  predicate Drop(s: World, s': World) {
    s' == s.(stream := Disconnected)
  }

  /**
    The driver takes the next event off the stream.  `resolved` tells whether a server request
    could be answered; if not, the stream is abandoned before the cursor moves.
   */
  predicate Deliver(s: World, s': World, resolved: bool) {
    && s.outcome == Driving && s.stream.Connected? && s.stream.pending != []
    && var event := s.stream.pending[0];
    && var rest := Connected(s.stream.position, s.stream.pending[1..]);
    && s' ==
       if event.id > s.cursor + 1 then s.(outcome := GapReported)
       else match event.kind
         case Notification =>
           s.(stream := rest, handled := s.handled + [event], cursor := event.id)
         case ServerRequest =>
           if resolved then s.(stream := rest, cursor := event.id) else s.(stream := Disconnected)
         case SessionFailed => s.(outcome := Ended)
  }

  /** The turn completed, the lease was lost or the deadline passed. */
  predicate End(s: World, s': World) {
    s.outcome == Driving && s' == s.(outcome := Ended)
  }

  datatype Step = DoPublish(kind: EventKind, data: string) | DoConnect | DoFetch | DoDrop
                | DoDeliver(resolved: bool) | DoEnd

  predicate Next(s: World, step: Step, s': World) {
    match step
    case DoPublish(k, d) => Publish(s, s', k, d)
    case DoConnect => Connect(s, s')
    case DoFetch => Fetch(s, s')
    case DoDrop => Drop(s, s')
    case DoDeliver(r) => Deliver(s, s', r)
    case DoEnd => End(s, s')
  }

  // ---------------------------------------------------------------- invariant

  /** `event` is the log's next event after `prev`, or all between them have been evicted. */
  ghost predicate Link(history: seq<Event>, capacity: nat, prev: int, event: Event) {
    && -1 <= prev < event.id < |history| && event == history[event.id]
    && (event.id > prev + 1 ==> prev + 1 < Evicted(|history|, capacity))
  }

  /** In flight are log events in order; where one is missing, it has been evicted. */
  ghost predicate Chain(history: seq<Event>, capacity: nat, prev: int, pending: seq<Event>)
    decreases |pending|
  {
    pending != [] ==>
      && Link(history, capacity, prev, pending[0])
      && Chain(history, capacity, pending[0].id, pending[1..])
  }

  lemma {:induction false} ChainAppend(history: seq<Event>, capacity: nat, prev: int, a: seq<Event>, b: seq<Event>)
    requires Chain(history, capacity, prev, a) && Chain(history, capacity, LastId(a, prev), b)
    ensures Chain(history, capacity, prev, a + b) && LastId(a + b, prev) == LastId(b, LastId(a, prev))
    decreases |a|
  {
    if a == [] {
      assert a + b == b;
    } else {
      assert (a + b)[1..] == a[1..] + b;
      ChainAppend(history, capacity, a[0].id, a[1..], b);
    }
  }

  lemma {:induction false} ChainSuffix(history: seq<Event>, capacity: nat, lo: nat)
    requires Numbered(history) && lo <= |history|
    ensures Chain(history, capacity, lo - 1, history[lo..])
    decreases |history| - lo
  {
    if lo < |history| {
      assert history[lo..][1..] == history[lo + 1..];
      ChainSuffix(history, capacity, lo + 1);
    }
  }

  lemma {:induction false} ChainGrows(history: seq<Event>, event: Event, capacity: nat, prev: int, pending: seq<Event>)
    requires Chain(history, capacity, prev, pending)
    ensures Chain(history + [event], capacity, prev, pending)
    decreases |pending|
  {
    if pending != [] {
      ChainGrows(history, event, capacity, pending[0].id, pending[1..]);
    }
  }

  /** The handled notifications are those of one contiguous run of the log. */
  ghost predicate ExactlyOnce(s: World) {
    && -1 <= s.start <= s.cursor < |s.history|
    && s.handled == Notifications(s.history[s.start + 1..s.cursor + 1])
  }

  ghost predicate StreamInv(s: World) {
    s.stream.Connected? ==>
      && s.stream.position == LastId(s.stream.pending, s.cursor)
      && Chain(s.history, s.capacity, s.cursor, s.stream.pending)
  }

  ghost predicate Inv(s: World) {
    Numbered(s.history) && ExactlyOnce(s) && StreamInv(s)
  }

  /** What a read yields continues the stream, over evicted events if need be. */
  lemma UnreadContinues(history: seq<Event>, capacity: nat, after: int)
    requires Numbered(history) && -1 <= after < |history|
    ensures Chain(history, capacity, after, Unread(history, capacity, after))
  {
    var lo := FirstUnread(|history|, capacity, after);
    ChainSuffix(history, capacity, lo);
    if lo < |history| {
      assert Link(history, capacity, after, history[lo..][0]);
    }
  }

  lemma {:induction false} ChainStaysInside(history: seq<Event>, capacity: nat, prev: int, pending: seq<Event>)
    requires Chain(history, capacity, prev, pending) && -1 <= prev < |history|
    ensures -1 <= LastId(pending, prev) < |history|
    decreases |pending|
  {
    if pending != [] {
      ChainStaysInside(history, capacity, pending[0].id, pending[1..]);
    }
  }

  lemma FetchInv(s: World, s': World)
    requires Inv(s) && Fetch(s, s')
    ensures Inv(s')
  {
    ChainStaysInside(s.history, s.capacity, s.cursor, s.stream.pending);
    UnreadContinues(s.history, s.capacity, s.stream.position);
    ChainAppend(s.history, s.capacity, s.cursor, s.stream.pending,
                Unread(s.history, s.capacity, s.stream.position));
  }

  lemma HandleNext(history: seq<Event>, start: int, cursor: int, handled: seq<Event>)
    requires -1 <= start <= cursor && cursor + 1 < |history|
    requires handled == Notifications(history[start + 1..cursor + 1])
    ensures Notifications(history[start + 1..cursor + 2]) ==
            if history[cursor + 1].kind == Notification then handled + [history[cursor + 1]] else handled
  {
    var slice := history[start + 1..cursor + 2];
    assert slice[..|slice| - 1] == history[start + 1..cursor + 1];
  }

  lemma TakeFromChain(history: seq<Event>, capacity: nat, prev: int, pending: seq<Event>)
    requires pending != [] && Chain(history, capacity, prev, pending)
    ensures Link(history, capacity, prev, pending[0])
    ensures Chain(history, capacity, pending[0].id, pending[1..])
    ensures LastId(pending[1..], pending[0].id) == LastId(pending, prev)
  {
  }

  lemma DeliverStream(s: World, s': World, resolved: bool)
    requires StreamInv(s) && Deliver(s, s', resolved)
    ensures StreamInv(s')
    ensures Link(s.history, s.capacity, s.cursor, s.stream.pending[0])
  {
    TakeFromChain(s.history, s.capacity, s.cursor, s.stream.pending);
  }

  /** The log's next event is taken, and handed over if it is a notification. */
  predicate TakesNext(s: World, s': World) {
    && 0 <= s.cursor + 1 < |s.history| && s'.cursor == s.cursor + 1
    && s'.handled == if s.history[s.cursor + 1].kind == Notification
                     then s.handled + [s.history[s.cursor + 1]] else s.handled
  }

  /** The cursor moves, if at all, to the log's next event. */
  lemma DeliverTakes(s: World, s': World, resolved: bool)
    requires Deliver(s, s', resolved) && Link(s.history, s.capacity, s.cursor, s.stream.pending[0])
    ensures s'.history == s.history && s'.start == s.start
    ensures (s'.cursor == s.cursor && s'.handled == s.handled) || TakesNext(s, s')
  {
  }

  lemma TakesNextHandles(s: World, s': World)
    requires ExactlyOnce(s) && s'.history == s.history && s'.start == s.start && TakesNext(s, s')
    ensures ExactlyOnce(s')
  {
    HandleNext(s.history, s.start, s.cursor, s.handled);
    assert s.cursor + 2 == s'.cursor + 1;
  }

  lemma DeliverInv(s: World, s': World, resolved: bool)
    requires Inv(s) && Deliver(s, s', resolved)
    ensures Inv(s')
  {
    DeliverStream(s, s', resolved);
    DeliverTakes(s, s', resolved);
    if s'.cursor != s.cursor {
      TakesNextHandles(s, s');
    }
  }

  lemma PublishInv(s: World, s': World, kind: EventKind, data: string)
    requires Inv(s) && Publish(s, s', kind, data)
    ensures Inv(s')
  {
    assert s'.history[s.start + 1..s.cursor + 1] == s.history[s.start + 1..s.cursor + 1];
    if s.stream.Connected? {
      ChainGrows(s.history, Event(|s.history|, kind, data), s.capacity, s.cursor, s.stream.pending);
    }
  }

  lemma NextInv(s: World, step: Step, s': World)
    requires Inv(s) && Next(s, step, s')
    ensures Inv(s')
  {
    match step
    case DoPublish(k, d) => PublishInv(s, s', k, d);
    case DoFetch => FetchInv(s, s');
    case DoDeliver(r) => DeliverInv(s, s', r);
    case _ =>
  }

  // ---------------------------------------------------------------- runs

  datatype Run = Run(worlds: seq<World>, steps: seq<Step>) {
    ghost predicate StepAt(i: nat)
      requires |worlds| == |steps| + 1
    {
      i < |steps| && Next(worlds[i], steps[i], worlds[i + 1])
    }

    ghost predicate Valid() {
      && |worlds| == |steps| + 1 && Init(worlds[0])
      && forall i: nat {:trigger StepAt(i)} :: i < |steps| ==> StepAt(i)
    }
  }

  lemma {:induction false} RunInv(run: Run, i: nat)
    requires run.Valid() && i < |run.worlds|
    ensures Inv(run.worlds[i])
  {
    if i > 0 {
      RunInv(run, i - 1);
      assert run.StepAt(i - 1);
      NextInv(run.worlds[i - 1], run.steps[i - 1], run.worlds[i]);
    }
  }

  /**
    Exactly once: through evictions, broken connections and reconnects, the notifications handled
    so far are those between the initial cursor and the current one, in order, none twice.
   */
  lemma HandledExactlyOnce(run: Run, i: nat)
    requires run.Valid() && i < |run.worlds|
    ensures var s := run.worlds[i];
            && -1 <= s.start <= s.cursor < |s.history|
            && s.handled == Notifications(s.history[s.start + 1..s.cursor + 1])
  {
    RunInv(run, i);
  }

  // ---------------------------------------------------------------- gaps

  /** The next unread event was evicted before the connection in use could read it. */
  predicate Lost(s: World) {
    && s.cursor + 1 < Evicted(|s.history|, s.capacity)
    && (s.stream.Connected? && s.stream.pending != [] ==> s.stream.pending[0].id != s.cursor + 1)
  }

  /** A gap is reported exactly when the next unread event is lost, and nothing is handled then. */
  lemma GapReportedExactlyWhenLost(run: Run, i: nat)
    requires run.Valid() && i < |run.steps| && run.steps[i].DoDeliver?
    ensures run.worlds[i + 1].outcome == GapReported <==> Lost(run.worlds[i])
    ensures Lost(run.worlds[i]) ==> run.worlds[i + 1].handled == run.worlds[i].handled
  {
    RunInv(run, i);
    assert run.StepAt(i);
    var s := run.worlds[i];
    assert Link(s.history, s.capacity, s.cursor, s.stream.pending[0]);
  }

  /** Once lost, the event stays lost: the cursor never moves past it again. */
  lemma {:induction false} LostForGood(run: Run, i: nat, j: nat)
    requires run.Valid() && i <= j < |run.worlds| && Lost(run.worlds[i])
    ensures Lost(run.worlds[j])
    ensures run.worlds[j].cursor == run.worlds[i].cursor && run.worlds[j].handled == run.worlds[i].handled
    decreases j - i
  {
    if i < j {
      RunInv(run, i);
      assert run.StepAt(i);
      LostStep(run.worlds[i], run.steps[i], run.worlds[i + 1]);
      LostForGood(run, i + 1, j);
    }
  }

  lemma LostStep(s: World, step: Step, s': World)
    requires Inv(s) && Lost(s) && Next(s, step, s')
    ensures Lost(s') && s'.cursor == s.cursor && s'.handled == s.handled
  {
    match step
    case DoFetch =>
      var lo := FirstUnread(|s.history|, s.capacity, s.stream.position);
      if s.stream.pending == [] && s'.stream.pending != [] {
        assert s'.stream.pending[0] == s.history[lo];
      }
    case DoDeliver(_) => assert Link(s.history, s.capacity, s.cursor, s.stream.pending[0]);
    case _ =>
  }

  // ---------------------------------------------------------------- nothing is withheld

  lemma {:induction false} ChainEnd(history: seq<Event>, capacity: nat, prev: int, pending: seq<Event>)
    requires Chain(history, capacity, prev, pending) && pending != []
    ensures LastId(pending, prev) == pending[|pending| - 1].id > prev
    decreases |pending|
  {
    if |pending| > 1 {
      ChainEnd(history, capacity, pending[0].id, pending[1..]);
    }
  }

  /** What a read yields ends with the newest event, if that is unread. */
  lemma NewestIsRead(history: seq<Event>, capacity: nat, after: int)
    requires Numbered(history) && -1 <= after < |history| && capacity > 0
    ensures LastId(Unread(history, capacity, after), after) == |history| - 1
  {
    var batch := Unread(history, capacity, after);
    ReadIsExact(history, capacity, after);
    assert batch != [] ==> Owed(history, capacity, after, batch[|batch| - 1]);
    if after < |history| - 1 {
      assert Owed(history, capacity, after, history[|history| - 1]);
      assert history[|history| - 1] in batch;
    }
  }

  /** A fetch brings the stream up to the newest event, unless the log keeps none at all. */
  lemma FetchReachesNewest(run: Run, i: nat)
    requires run.Valid() && i < |run.steps| && run.steps[i].DoFetch? && run.worlds[i].capacity > 0
    ensures var s := run.worlds[i + 1];
            s.stream.Connected? && s.stream.position == |s.history| - 1
  {
    RunInv(run, i);
    assert run.StepAt(i);
    var s := run.worlds[i];
    ChainStaysInside(s.history, s.capacity, s.cursor, s.stream.pending);
    NewestIsRead(s.history, s.capacity, s.stream.position);
  }

  ghost predicate StaysConnected(run: Run, i: nat, j: nat)
    requires run.Valid() && i <= j < |run.worlds|
  {
    forall k :: i <= k <= j ==> run.worlds[k].stream.Connected?
  }

  lemma {:induction false} PositionGrows(run: Run, i: nat, j: nat)
    requires run.Valid() && i <= j < |run.worlds| && StaysConnected(run, i, j)
    ensures run.worlds[j].stream.position >= run.worlds[i].stream.position
    ensures run.worlds[j].start == run.worlds[i].start && |run.worlds[j].history| >= |run.worlds[i].history|
    decreases j - i
  {
    if i < j {
      var s, s' := run.worlds[j - 1], run.worlds[j];
      PositionGrows(run, i, j - 1);
      RunInv(run, j - 1);
      assert run.StepAt(j - 1);
      if run.steps[j - 1].DoFetch? {
        var batch := Unread(s.history, s.capacity, s.stream.position);
        ChainStaysInside(s.history, s.capacity, s.cursor, s.stream.pending);
        UnreadContinues(s.history, s.capacity, s.stream.position);
        if batch != [] {
          ChainEnd(s.history, s.capacity, s.stream.position, batch);
        }
      }
    }
  }

  /**
    A connection that has fetched at `i` and has been drained by `j` has brought the cursor to what
    was the newest event at the fetch; if nothing was published since, the driver has handled every
    notification there is.
   */
  lemma DrainedIsCurrent(run: Run, i: nat, j: nat)
    requires run.Valid() && i < j < |run.worlds| && run.steps[i].DoFetch? && run.worlds[i].capacity > 0
    requires StaysConnected(run, i + 1, j) && run.worlds[j].stream.pending == []
    ensures run.worlds[j].cursor >= |run.worlds[i].history| - 1
    ensures var s := run.worlds[j];
            |s.history| == |run.worlds[i].history| ==>
              && -1 <= s.start < |s.history| && s.cursor == |s.history| - 1
              && s.handled == Notifications(s.history[s.start + 1..])
  {
    FetchReachesNewest(run, i);
    assert run.StepAt(i);
    PositionGrows(run, i + 1, j);
    RunInv(run, j);
    var s := run.worlds[j];
    if |s.history| == |run.worlds[i].history| {
      assert s.history[s.start + 1..s.cursor + 1] == s.history[s.start + 1..];
    }
  }

  // ---------------------------------------------------------------- the driver's loop

  /** Why the driver leaves the loop over one connection. */
  datatype Stop = StreamEnded | LeaseLost | Gap | Unanswered | SessionLost | TurnEnded

  /**
    What the events of a batch meet: notifications of other executions, server requests whose
    handling raises, notifications that end the turn, and the place from which the lease is lost.
   */
  datatype Conditions = Conditions(foreign: set<int>, unanswered: set<int>, final: set<int>, leaseUntil: nat)

  /** What the builder is given of one event: a notification of this execution. */
  function Given(event: Event, foreign: set<int>): seq<Event> {
    if event.kind == Notification && event.id !in foreign then [event] else []
  }

  function AllGiven(events: seq<Event>, foreign: set<int>): seq<Event> {
    if events == [] then [] else AllGiven(events[..|events| - 1], foreign) + Given(events[|events| - 1], foreign)
  }

  function AfterStop(stop: Stop): Outcome {
    match stop
    case StreamEnded => Driving
    case Unanswered => Driving
    case Gap => GapReported
    case _ => Ended
  }

  predicate IsUnanswered(event: Event, c: Conditions) {
    event.kind == ServerRequest && event.id in c.unanswered
  }

  predicate EndsTurn(event: Event, c: Conditions) {
    event.kind == Notification && event.id !in c.foreign && event.id in c.final
  }

  /** Nothing in these events, of those the conditions name, stops the driver. */
  predicate Unstopped(events: seq<Event>, c: Conditions) {
    events != [] ==>
      var n := |events| - 1;
      Unstopped(events[..n], c) && n < c.leaseUntil && !IsUnanswered(events[n], c) && !EndsTurn(events[n], c)
  }

  /** What stops the driver before it takes an event; the tests are made in this order. */
  function StopBefore(event: Event, k: nat, cursor: int, c: Conditions): Option<Stop> {
    if k >= c.leaseUntil then Some(LeaseLost)
    else if event.id > cursor + 1 then Some(Gap)
    else match event.kind
      case ServerRequest => if IsUnanswered(event, c) then Some(Unanswered) else None
      case SessionFailed => Some(SessionLost)
      case Notification => None
  }

  /** The event for which the driver stops: a lost lease counts first, then a gap, then the event itself. */
  predicate StoppedBy(stop: Stop, event: Event, k: nat, cursor: int, c: Conditions) {
    match stop
    case LeaseLost => k >= c.leaseUntil
    case Gap => k < c.leaseUntil && event.id >= cursor + 2
    case Unanswered =>
      k < c.leaseUntil && event.id <= cursor + 1 && event.kind == ServerRequest && event.id in c.unanswered
    case SessionLost => k < c.leaseUntil && event.id <= cursor + 1 && event.kind == SessionFailed
    case _ => false
  }

  lemma StopMeans(event: Event, k: nat, cursor: int, c: Conditions)
    ensures var stop := StopBefore(event, k, cursor, c);
            && (stop.Some? ==> StoppedBy(stop.value, event, k, cursor, c))
            && (stop.None? ==> forall any :: !StoppedBy(any, event, k, cursor, c))
  {
  }

  /**
    The driver's code does what the protocol's steps do: it stops where a delivery ends the run,
    reports a gap or gives up the stream, and otherwise moves the cursor with it.
   */
  lemma StopIsStep(s: World, k: nat, c: Conditions) returns (s': World)
    requires s.outcome == Driving && s.stream.Connected? && s.stream.pending != []
    ensures var event := s.stream.pending[0];
            var stop := StopBefore(event, k, s.cursor, c);
            if stop == Some(LeaseLost) then End(s, s') && k >= c.leaseUntil
            else
              && Deliver(s, s', event.id !in c.unanswered)
              && s'.outcome == (if stop.Some? then AfterStop(stop.value) else Driving)
              && s'.cursor == (if stop.Some? then s.cursor else event.id)
              && (stop == Some(Gap) <==> s'.outcome == GapReported)
              && (stop == Some(SessionLost) <==> s'.outcome == Ended)
              && (stop == Some(Unanswered) <==> s'.outcome == Driving && s'.stream.Disconnected?)
  {
    var event := s.stream.pending[0];
    var rest := Connected(s.stream.position, s.stream.pending[1..]);
    match StopBefore(event, k, s.cursor, c)
    case Some(LeaseLost) => s' := s.(outcome := Ended);
    case Some(Gap) => s' := s.(outcome := GapReported);
    case Some(Unanswered) => s' := s.(stream := Disconnected);
    case Some(SessionLost) => s' := s.(outcome := Ended);
    case None =>
      s' := s.(stream := rest, cursor := event.id,
               handled := if event.kind == Notification then s.handled + [event] else s.handled);
  }

  /** The part of `_drive` that works through what one connection delivers. */
  class Driver {
    var cursor: int
    var consumed: seq<Event>       // notifications given to the builder
    var outcome: Outcome

    constructor (start: int)
      ensures cursor == start && consumed == [] && outcome == Driving
    {
      cursor, consumed, outcome := start, [], Driving;
    }

    /** The body of the loop: the next event is taken, unless something stops the driver first. */
    method Take(event: Event, k: nat, c: Conditions) returns (stop: Option<Stop>)
      requires outcome == Driving
      modifies this
      ensures var before := StopBefore(event, k, old(cursor), c);
              if before.Some? then
                stop == before && cursor == old(cursor) && consumed == old(consumed)
              else
                && cursor == event.id
                && consumed == old(consumed) + Given(event, c.foreign)
                && stop == if EndsTurn(event, c) then Some(TurnEnded) else None
      ensures outcome == if stop.Some? then AfterStop(stop.value) else Driving
    {
      if k >= c.leaseUntil {
        outcome := Ended;
        return Some(LeaseLost);
      }
      if event.id > cursor + 1 {
        outcome := GapReported;
        return Some(Gap);
      }
      match event.kind {
        case ServerRequest =>
          if event.id in c.unanswered {
            return Some(Unanswered);
          }
        case SessionFailed =>
          outcome := Ended;
          return Some(SessionLost);
        case Notification =>
          if event.id !in c.foreign {
            consumed := consumed + [event];
          }
      }
      cursor := event.id;
      if EndsTurn(event, c) {
        outcome := Ended;
        return Some(TurnEnded);
      }
      stop := None;
    }

    /**
      Takes events while they continue the cursor; `taken` of them were accepted.  The stream is
      given up for another one, with the cursor where it is, when it ends or when a server request
      could not be handled; everything else ends the execution.
     */
    method Drain(batch: seq<Event>, c: Conditions) returns (taken: nat, stop: Stop)
      requires outcome == Driving
      modifies this
      ensures taken <= |batch| && outcome == AfterStop(stop)
      ensures Took(batch[..taken], c, old(cursor), old(consumed), cursor, consumed)
      ensures match stop
              case StreamEnded => taken == |batch| && Unstopped(batch, c)
              case TurnEnded => taken > 0 && EndsTurn(batch[taken - 1], c) && Unstopped(batch[..taken - 1], c)
              case _ =>
                && taken < |batch| && Unstopped(batch[..taken], c)
                && StoppedBy(stop, batch[taken], taken, cursor, c)
      ensures outcome == Driving <==> stop == StreamEnded || stop == Unanswered
      ensures outcome == GapReported <==> stop == Gap
    {
      taken := 0;
      while taken < |batch|
        invariant taken <= |batch| && outcome == Driving
        invariant Took(batch[..taken], c, old(cursor), old(consumed), cursor, consumed)
        invariant Unstopped(batch[..taken], c)
      {
        ghost var before, given := cursor, consumed;
        var found := Take(batch[taken], taken, c);
        StopMeans(batch[taken], taken, before, c);
        if found.Some? && found.value != TurnEnded {
          return taken, found.value;
        }
        TakenStep(batch, taken, c, old(cursor), old(consumed), before, given);
        if found.Some? {
          return taken + 1, TurnEnded;
        }
        taken := taken + 1;
      }
      assert batch[..taken] == batch;
      stop := StreamEnded;
    }
  }

  /** The events were accepted one after the other: cursor and consumed notifications are theirs. */
  predicate Took(events: seq<Event>, c: Conditions, from: int, given: seq<Event>, cursor: int, consumed: seq<Event>) {
    && Accepted(events, from) && cursor == LastId(events, from)
    && consumed == given + AllGiven(events, c.foreign)
  }

  lemma TakenStep(batch: seq<Event>, k: nat, c: Conditions, from: int, given: seq<Event>, cursor: int,
                  consumed: seq<Event>)
    requires k < |batch| && Took(batch[..k], c, from, given, cursor, consumed) && Unstopped(batch[..k], c)
    requires StopBefore(batch[k], k, cursor, c).None?
    ensures Took(batch[..k + 1], c, from, given, batch[k].id, consumed + Given(batch[k], c.foreign))
    ensures !EndsTurn(batch[k], c) ==> Unstopped(batch[..k + 1], c)
  {
    assert batch[..k + 1][..k] == batch[..k];
  }

  /** What the builder is given are the notifications of this execution among those taken. */
  lemma {:induction false} GivenAreOwn(events: seq<Event>, foreign: set<int>)
    ensures forall e :: e in AllGiven(events, foreign) <==> e in Notifications(events) && e.id !in foreign
    ensures foreign == {} ==> AllGiven(events, foreign) == Notifications(events)
  {
    if events != [] {
      GivenAreOwn(events[..|events| - 1], foreign);
    }
  }

  /** Every event continues the one before it, and the session did not fail. */
  predicate Accepted(batch: seq<Event>, cursor: int) {
    batch != [] ==>
      var n := |batch| - 1;
      && Accepted(batch[..n], cursor)
      && batch[n].id <= LastId(batch[..n], cursor) + 1 && batch[n].kind != SessionFailed
  }

  lemma RunExtends(history: seq<Event>, capacity: nat, cursor: int, front: seq<Event>, event: Event)
    requires Numbered(history) && -1 <= cursor && cursor + |front| < |history|
    requires front == history[cursor + 1..cursor + 1 + |front|]
    requires Link(history, capacity, LastId(front, cursor), event) && event.id <= LastId(front, cursor) + 1
    ensures cursor + |front| + 1 < |history|
    ensures front + [event] == history[cursor + 1..cursor + 2 + |front|]
  {
    var n := |front|;
    if n > 0 {
      assert front[n - 1] == history[cursor + n];
    }
    assert LastId(front, cursor) == cursor + n;
    assert event == history[cursor + 1 + n];
  }

  /** On what a connection can deliver, the driver takes a contiguous run of the log. */
  lemma {:induction false} AcceptedIsContiguous(history: seq<Event>, capacity: nat, cursor: int, batch: seq<Event>)
    requires Numbered(history) && -1 <= cursor < |history|
    requires Chain(history, capacity, cursor, batch) && Accepted(batch, cursor)
    ensures cursor + |batch| < |history| && batch == history[cursor + 1..cursor + 1 + |batch|]
  {
    if batch != [] {
      var front, event := batch[..|batch| - 1], batch[|batch| - 1];
      assert batch == front + [event];
      assert event.id <= LastId(front, cursor) + 1;
      ChainPrefix(history, capacity, cursor, front, event);
      AcceptedIsContiguous(history, capacity, cursor, front);
      RunExtends(history, capacity, cursor, front, event);
      assert |batch| == |front| + 1;
    }
  }

  lemma {:induction false} ChainPrefix(history: seq<Event>, capacity: nat, prev: int, a: seq<Event>, event: Event)
    requires Chain(history, capacity, prev, a + [event])
    ensures Chain(history, capacity, prev, a) && Link(history, capacity, LastId(a, prev), event)
    decreases |a|
  {
    if a == [] {
      assert a + [event] == [event];
    } else {
      assert (a + [event])[1..] == a[1..] + [event];
      ChainPrefix(history, capacity, a[0].id, a[1..], event);
    }
  }
}
