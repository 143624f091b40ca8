/**
 The server side of the event stream: the bounded log of sequenced events, and the hand-over of one
 connection from replay to live events.
 */
module EventLog {

  datatype Event = Event(number: nat, body: string)

  /** A resume position as the log sees it, once it has been turned into a number. */
  datatype Cursor = Absent | NotFinite | After(position: int)

  // ---------------------------------------------------------------- specification

  datatype LogState = LogState(limit: int, number: nat, events: seq<Event>)

  function Published(log: LogState, body: string): LogState
  {
    var event := Event(log.number + 1, body);
    var pushed := log.events + [event];
    LogState(log.limit, log.number + 1, if |pushed| > log.limit then pushed[1..] else pushed)
  }

  function EventsAfter(events: seq<Event>, position: int): seq<Event>
  {
    if events == [] then []
    else (if events[0].number > position then [events[0]] else []) + EventsAfter(events[1..], position)
  }

  function Replayed(log: LogState, cursor: Cursor): seq<Event>
  {
    if cursor.After? then EventsAfter(log.events, cursor.position) else []
  }

  /** One connection: what has been written to it, and the numbers written so far. */
  datatype Outbox = Outbox(written: seq<Event>, delivered: set<nat>)

  function Offered(box: Outbox, event: Event): Outbox
  {
    if event.number in box.delivered then box
    else Outbox(box.written + [event], box.delivered + {event.number})
  }

  function OfferedAll(events: seq<Event>): Outbox
  {
    if events == [] then Outbox([], {})
    else Offered(OfferedAll(events[..|events| - 1]), events[|events| - 1])
  }

  function HelloOf(log: LogState, hello: string): Event
  {
    Event(log.number + 1, hello)
  }

  /** What a new connection is sent at once, before any live event. */
  function Opening(log: LogState, cursor: Cursor, hello: string): seq<Event>
  {
    OfferedAll(Replayed(Published(log, hello), cursor) + [HelloOf(log, hello)]).written
  }

  // ---------------------------------------------------------------- what the log holds

  /** `history` is the list of all events ever published, numbered from 1. */
  ghost predicate IsHistory(history: seq<Event>)
  {
    forall i :: 0 <= i < |history| ==> history[i].number == i + 1
  }

  /** How many of the first `number` events a log of this limit has pushed out. */
  function Oldest(limit: int, number: nat): nat
  {
    if limit < 0 then number else if number <= limit then 0 else number - limit
  }

  /** The log holds the latest events of `history`, as many as fit. */
  ghost predicate Holds(log: LogState, history: seq<Event>)
  {
    && IsHistory(history)
    && log.number == |history|
    && log.events == history[Oldest(log.limit, log.number)..]
  }

  /** Publishing appends to the history, and the log again holds its latest events. */
  lemma PublishedHolds(log: LogState, history: seq<Event>, body: string)
    requires Holds(log, history)
    ensures Holds(Published(log, body), history + [HelloOf(log, body)])
  {
    var log' := Published(log, body);
    var history' := history + [HelloOf(log, body)];
    var pushed := log.events + [HelloOf(log, body)];
    assert pushed == history'[Oldest(log.limit, log.number)..];
  }

  lemma {:induction false} EventsAfterSuffix(history: seq<Event>, from: nat, position: int)
    requires IsHistory(history) && from <= |history|
    ensures EventsAfter(history[from..], position) == history[Min(|history|, Max(position, from))..]
    decreases |history| - from
  {
    if from < |history| {
      EventsAfterSuffix(history, from + 1, position);
      assert history[from..][1..] == history[from + 1..];
      assert history[from..] == [history[from]] + history[from + 1..];
    }
  }

  lemma {:induction false} DistinctAreAllOffered(events: seq<Event>)
    requires forall i, j :: 0 <= i < j < |events| ==> events[i].number != events[j].number
    ensures OfferedAll(events).written == events
    ensures forall n :: n in OfferedAll(events).delivered <==> exists i :: 0 <= i < |events| && events[i].number == n
  {
    if events != [] {
      var n := |events| - 1;
      DistinctAreAllOffered(events[..n]);
      assert events == events[..n] + [events[n]];
    }
  }

  function Min(a: int, b: int): int { if a < b then a else b }

  function Max(a: int, b: int): int { if a < b then b else a }

  /** Where the first event sent to a new connection stands in the history. */
  function OpeningStart(log: LogState, cursor: Cursor): nat
  {
    if cursor.After? then Min(log.number, Max(cursor.position, Oldest(log.limit, log.number + 1))) else log.number
  }

  /**
   A new connection is sent one unbroken stretch of the history that ends with its own hello. It
   starts right behind the cursor, unless the hello pushed what comes there out of the log.
   */
  lemma OpeningIsSuffix(log: LogState, history: seq<Event>, cursor: Cursor, hello: string)
    requires Holds(log, history)
    ensures Opening(log, cursor, hello)
            == (history + [HelloOf(log, hello)])[OpeningStart(log, cursor)..]
  {
    PublishedHolds(log, history, hello);
    OpeningOfLog(Published(log, hello), history + [HelloOf(log, hello)], cursor);
  }

  lemma OpeningOfLog(log: LogState, history: seq<Event>, cursor: Cursor)
    requires Holds(log, history) && history != []
    ensures var last := |history| - 1;
            var start := if cursor.After?
                         then Min(last, Max(cursor.position, Oldest(log.limit, log.number))) else last;
            OfferedAll(Replayed(log, cursor) + [history[last]]).written == history[start..]
  {
    hide OfferedAll, EventsAfter;
    var last := |history| - 1;
    ReplayIsSuffix(log, history, cursor);
    if cursor.After? && Max(cursor.position, Oldest(log.limit, log.number)) <= last {
      var start := Max(cursor.position, Oldest(log.limit, log.number));
      assert Replayed(log, cursor) == history[start..];
      HelloIsSentOnce(history[start..], history[last]);
    } else {
      assert Replayed(log, cursor) == [];
      HelloIsSentOnce([], history[last]);
      assert history[last..] == [history[last]];
    }
  }

  /** The hello closes the replay when it is part of it, and is added when it is not. */
  lemma HelloIsSentOnce(replay: seq<Event>, hello: Event)
    requires forall i, j :: 0 <= i < j < |replay| ==> replay[i].number != replay[j].number
    requires replay != [] ==> replay[|replay| - 1] == hello
    ensures OfferedAll(replay + [hello]).written == if replay == [] then [hello] else replay
  {
    assert (replay + [hello])[..|replay|] == replay;
    DistinctAreAllOffered(replay);
  }

  lemma ReplayIsSuffix(log: LogState, history: seq<Event>, cursor: Cursor)
    requires Holds(log, history)
    ensures Replayed(log, cursor) ==
            if cursor.After? then history[Min(|history|, Max(cursor.position, Oldest(log.limit, log.number)))..] else []
  {
    if cursor.After? {
      EventsAfterSuffix(history, Oldest(log.limit, log.number), cursor.position);
    }
  }

  // ---------------------------------------------------------------- the code

  /** One `/jea/events` response. */
  class Connection {
    var delivered: set<nat>
    var written: seq<Event>

    constructor ()
      ensures State() == Outbox([], {})
    {
      delivered, written := {}, [];
    }

    function State(): Outbox
      reads this
    {
      Outbox(written, delivered)
    }

    ghost predicate UpTo(number: nat)
      reads this
    {
      forall n :: n in delivered ==> n <= number
    }

    method Offer(event: Event)
      modifies this
      ensures State() == Offered(old(State()), event)
    {
      if event.number !in delivered {
        delivered := delivered + {event.number};
        written := written + [event];
      }
    }

    method OfferAll(events: seq<Event>, ghost bound: nat)
      requires State() == Outbox([], {}) && forall e :: e in events ==> e.number <= bound
      modifies this
      ensures State() == OfferedAll(events) && UpTo(bound)
    {
      for i := 0 to |events|
        invariant State() == OfferedAll(events[..i]) && UpTo(bound)
      {
        assert events[..i + 1][..i] == events[..i];
        assert events[i] in events;
        Offer(events[i]);
      }
      assert events[..|events|] == events;
    }
  }

  class WebHostEventLog {
    const limit: int
    var number: nat
    var events: seq<Event>
    var listeners: seq<Connection>

    constructor (limit: int)
      ensures Valid() && listeners == [] && State() == LogState(limit, 0, [])
    {
      this.limit := limit;
      number, events, listeners := 0, [], [];
    }

    function State(): LogState
      reads this
    {
      LogState(limit, number, events)
    }

    /** Connections are distinct, and none has been sent a number that is yet to be given out. */
    ghost predicate Valid()
      reads this, listeners
    {
      && (forall i, j :: 0 <= i < j < |listeners| ==> listeners[i] != listeners[j])
      && (forall i :: 0 <= i < |listeners| ==> listeners[i].UpTo(number))
      && (forall i :: 0 <= i < |events| ==> events[i].number <= number)
    }

    /** Every open connection is sent the new event, once. */
    method Publish(body: string) returns (event: Event)
      requires Valid()
      modifies this`number, this`events, listeners
      ensures Valid() && listeners == old(listeners)
      ensures event == HelloOf(old(State()), body)
      ensures State() == Published(old(State()), body)
      ensures forall i :: 0 <= i < |listeners| ==> listeners[i].written == old(listeners[i].written) + [event]
    {
      number := number + 1;
      event := Event(number, body);
      events := events + [event];
      if |events| > limit { events := events[1..]; }
      Notify(event);
    }

    method Notify(event: Event)
      requires forall i, j :: 0 <= i < j < |listeners| ==> listeners[i] != listeners[j]
      requires event.number == number > 0
      requires forall i :: 0 <= i < |listeners| ==> listeners[i].UpTo(number - 1)
      modifies listeners
      ensures forall i :: 0 <= i < |listeners| ==> listeners[i].written == old(listeners[i].written) + [event]
      ensures forall i :: 0 <= i < |listeners| ==> listeners[i].UpTo(number)
    {
      for i := 0 to |listeners|
        invariant forall k :: 0 <= k < i ==> listeners[k].written == old(listeners[k].written) + [event]
        invariant forall k :: 0 <= k < i ==> listeners[k].UpTo(number)
        invariant forall k :: i <= k < |listeners| ==> listeners[k].written == old(listeners[k].written)
        invariant forall k :: i <= k < |listeners| ==> listeners[k].UpTo(number - 1)
      {
        listeners[i].Offer(event);
      }
    }

    method ReplayFrom(cursor: Cursor) returns (replay: seq<Event>)
      ensures replay == Replayed(State(), cursor)
    {
      if !cursor.After? { return []; }
      replay := EventsAfter(events, cursor.position);
    }

    method Subscribe(connection: Connection)
      requires Valid() && connection !in listeners && connection.UpTo(number)
      modifies this`listeners
      ensures Valid() && listeners == old(listeners) + [connection]
    {
      listeners := listeners + [connection];
    }

    /** A closed request unsubscribes; nothing further is written to it. */
    method Unsubscribe(connection: Connection)
      requires Valid()
      modifies this`listeners
      ensures Valid() && connection !in listeners
      ensures forall c :: c in listeners <==> c in old(listeners) && c != connection
    {
      if i :| 0 <= i < |listeners| && listeners[i] == connection {
        listeners := listeners[..i] + listeners[i + 1..];
      }
    }

    /** `handleEvents` of the host: hello, replay, then live events. */
    method HandleEvents(cursor: Cursor, hello: string) returns (connection: Connection)
      requires Valid()
      modifies this, listeners
      ensures Valid() && fresh(connection) && listeners == old(listeners) + [connection]
      ensures State() == Published(old(State()), hello)
      ensures connection.written == Opening(old(State()), cursor, hello)
      ensures forall i :: 0 <= i < |old(listeners)| ==>
                listeners[i].written == old(listeners[i].written) + [HelloOf(old(State()), hello)]
    {
      var event := Publish(hello);
      var replay := ReplayFrom(cursor);
      EventsAfterAreEvents(events, if cursor.After? then cursor.position else 0);
      connection := new Connection();
      connection.OfferAll(replay + [event], number);
      Subscribe(connection);
    }
  }

  lemma {:induction false} EventsAfterAreEvents(events: seq<Event>, position: int)
    ensures forall e :: e in EventsAfter(events, position) <==> e in events && e.number > position
  {
    if events != [] {
      EventsAfterAreEvents(events[1..], position);
      assert events == [events[0]] + events[1..];
    }
  }
}
