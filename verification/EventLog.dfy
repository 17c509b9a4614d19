/** The Worker's bounded event history. */
module EventLogs {

  datatype EventKind = Notification | ServerRequest | SessionFailed

  datatype Event = Event(id: int, kind: EventKind, data: string)

  /** Event ids are positions in the unbounded history. */
  ghost predicate Numbered(history: seq<Event>) {
    forall i :: 0 <= i < |history| ==> history[i].id == i
  }

  /** How many events a log of this capacity has evicted. */
  function Evicted(published: nat, capacity: nat): nat {
    if published <= capacity then 0 else published - capacity
  }

  /** The position of the first retained event with an id above `after`. */
  function FirstUnread(published: nat, capacity: nat, after: int): (i: nat)
    ensures i <= published
  {
    var wanted := if after + 1 < Evicted(published, capacity) then Evicted(published, capacity) else after + 1;
    if wanted < published then wanted else published
  }

  /** What a read after `after` yields: the retained suffix of the history above it. */
  function Unread(history: seq<Event>, capacity: nat, after: int): seq<Event> {
    history[FirstUnread(|history|, capacity, after)..]
  }

  predicate Increasing(events: seq<Event>) {
    forall i, j :: 0 <= i < j < |events| ==> events[i].id < events[j].id
  }

  /** The events that a reader at `after` is owed: those above it that the log still holds. */
  ghost predicate Owed(history: seq<Event>, capacity: nat, after: int, e: Event) {
    e in history && e.id > after && e.id >= |history| - capacity
  }

  /** A read yields every event that is owed, no other, each once and in the order of their ids. */
  lemma ReadIsExact(history: seq<Event>, capacity: nat, after: int)
    requires Numbered(history)
    ensures forall e :: e in Unread(history, capacity, after) <==> Owed(history, capacity, after, e)
    ensures Increasing(Unread(history, capacity, after))
  {
    var lo := FirstUnread(|history|, capacity, after);
    forall e | Owed(history, capacity, after, e)
      ensures e in history[lo..]
    {
      assert history[lo..][e.id - lo] == e;
    }
  }

  class EventLog {
    const capacity: nat
    var events: seq<Event>
    var nextId: nat
    var closed: bool
    ghost var history: seq<Event>

    /** The log holds exactly the last `capacity` events ever published. */
    ghost predicate Valid()
      reads this
    {
      && Numbered(history) && nextId == |history|
      && events == history[Evicted(|history|, capacity)..]
    }

    constructor (maxHistory: nat)
      ensures Valid() && history == [] && capacity == maxHistory && !closed
    {
      capacity := maxHistory;
      events, nextId, closed, history := [], 0, false, [];
    }

    function LastEventId(): (id: int)
      requires Valid()
      reads this
      ensures id == |history| - 1
    {
      nextId - 1
    }

    /** A full deque drops its oldest event. */
    method Publish(kind: EventKind, data: string) returns (event: Event)
      requires Valid()
      modifies this`events, this`nextId, this`history
      ensures Valid() && event == Event(|old(history)|, kind, data)
      ensures history == old(history) + [event]
    {
      event := Event(nextId, kind, data);
      nextId := nextId + 1;
      events := events + [event];
      if |events| > capacity {
        events := events[1..];
      }
      history := history + [event];
    }

    method Close()
      requires Valid()
      modifies this`closed
      ensures Valid() && closed
    {
      closed := true;
    }

    /** The scan over the deque keeps the events above `after`. */
    method Read(after: int) returns (unread: seq<Event>, ended: bool)
      requires Valid()
      ensures unread == Unread(history, capacity, after) && ended == closed
      ensures forall e :: e in unread <==> Owed(history, capacity, after, e)
      ensures Increasing(unread)
    {
      unread := [];
      var first := Evicted(nextId, capacity);
      ghost var lo := FirstUnread(|history|, capacity, after);
      var i := 0;
      while i < |events|
        invariant 0 <= i <= |events|
        invariant unread == if first + i <= lo then [] else history[lo..first + i]
      {
        if events[i].id > after {
          unread := unread + [events[i]];
        }
        i := i + 1;
      }
      ended := closed;
      ReadIsExact(history, capacity, after);
    }
  }
}
