/**
 The web client's end of the event stream: from the chunks it reads to the events it hands to its
 listeners. JSON and JavaScript's number conversions are parameters of the model.
 */
module WebClient {

  import opened Prelude
  import opened TextSplit
  import opened SseFraming
  import EventLog
  import ResumableStream

  /** A cursor as it comes out of JSON: not there, `null`, or a text. */
  datatype CursorField = Missing | Null | Is(text: string)

  /** An event as the client sees it: the two fields it looks at, and the rest. */
  datatype Message = Message(seqField: Option<int>, cursorField: CursorField, body: string)

  /** `Number(text)` when finite, `String(n)`, and `JSON.parse`, which may throw. */
  datatype Host = Host(toNumber: string -> Option<int>, toText: int -> string, decode: string -> Option<Message>)

  datatype State = State(seen: int, cursor: Option<string>, emitted: seq<Message>)

  // ---------------------------------------------------------------- specification

  /** `Number` makes 0 of `null`, and no number of what is not there. */
  function Position(host: Host, message: Message): Option<int>
  {
    if message.seqField.Some? then message.seqField
    else
      match message.cursorField
      case Missing => None
      case Null => Some(0)
      case Is(text) => host.toNumber(text)
  }

  /** An event that cannot be placed is handed on; one that can, only when it is news. */
  function Emitted(host: Host, state: State, message: Message): State
  {
    match Position(host, message)
    case None => state.(emitted := state.emitted + [message])
    case Some(n) =>
      if n <= state.seen then state
      else
        var cursor := if message.cursorField.Is? then message.cursorField.text else host.toText(n);
        State(n, Some(cursor), state.emitted + [message])
  }

  /** An event with no number, no cursor but `null` and no id is dropped. */
  lemma NullCursorIsDropped(host: Host, state: State, body: string)
    requires state.seen >= 0
    ensures Emitted(host, state, Message(None, Null, body)) == state
  {
  }

  /** A number that the event has is its position; without one, the number that its cursor stands for. */
  ghost predicate PlacedAt(host: Host, message: Message, n: int)
  {
    || message.seqField == Some(n)
    || (message.seqField.None? && message.cursorField == Null && n == 0)
    || (message.seqField.None? && message.cursorField.Is? && host.toNumber(message.cursorField.text) == Some(n))
  }

  /** An event is handed on unless its position has been passed; if it has one the client moves there, and
      resumes at the event's own cursor, or for want of one at the text of its position. */
  lemma EmittedExactly(host: Host, state: State, message: Message)
    ensures var state' := Emitted(host, state, message);
            && ((exists n :: PlacedAt(host, message, n) && n <= state.seen) ==> state' == state)
            && (forall n :: PlacedAt(host, message, n) && n > state.seen ==>
                  && state'.seen == n && state'.emitted == state.emitted + [message]
                  && state'.cursor == Some(if message.cursorField.Is? then message.cursorField.text
                                           else host.toText(n)))
            && ((forall n :: !PlacedAt(host, message, n)) ==> state' == state.(emitted := state.emitted + [message]))
  {
    if Position(host, message).Some? { assert PlacedAt(host, message, Position(host, message).value); }
  }

  datatype Handling = Done(state: State) | Threw(state: State)

  /** One block; a block whose data is no JSON ends the connection. */
  function Handled(host: Host, state: State, part: string): Handling
  {
    var parsed := ParsedBlock(part);
    if parsed.data.None? || parsed.data.value == "" then Done(state)
    else
      match host.decode(parsed.data.value)
      case None => Threw(state)
      case Some(message) => Done(Emitted(host, state, WithId(message, parsed.id)))
  }

  /** The block's id stands in for a cursor that the event does not have. */
  function WithId(message: Message, id: Option<string>): Message
  {
    if id.Some? && id.value != "" && !message.cursorField.Is? then message.(cursorField := Is(id.value)) else message
  }

  /** A block without data is skipped, one whose data is no JSON ends the connection, and any other hands
      its event on, with the id of the block for a cursor if the event has none. */
  lemma HandledExactly(host: Host, state: State, part: string)
    ensures var block, handling := ParsedBlock(part), Handled(host, state, part);
            && (block.data.None? || block.data == Some("") ==> handling == Done(state))
            && (block.data.Some? && block.data.value != "" ==>
                  match host.decode(block.data.value)
                  case None => handling == Threw(state)
                  case Some(message) =>
                    var named := block.id.Some? && block.id.value != "" && !message.cursorField.Is?;
                    handling == Done(Emitted(host, state, Message(
                      message.seqField, if named then Is(block.id.value) else message.cursorField, message.body))))
  {
  }

  function HandledAll(host: Host, state: State, parts: seq<string>): Handling
  {
    if parts == [] then Done(state)
    else
      var before := HandledAll(host, state, parts[..|parts| - 1]);
      if before.Threw? then before else Handled(host, before.state, parts[|parts| - 1])
  }

  // ---------------------------------------------------------------- the code

  class StreamClient {
    const host: Host
    var seenSeq: int
    var lastCursor: Option<string>
    var emitted: seq<Message>
    var buffer: string

    constructor (host: Host)
      ensures this.host == host && buffer == "" && Now() == State(0, None, [])
    {
      this.host := host;
      seenSeq, lastCursor, emitted, buffer := 0, None, [], "";
    }

    function Now(): State
      reads this
    {
      State(seenSeq, lastCursor, emitted)
    }

    method Emit(message: Message)
      modifies this`seenSeq, this`lastCursor, this`emitted
      ensures Now() == Emitted(host, old(Now()), message)
    {
      var position := message.seqField;
      if position.None? && !message.cursorField.Missing? {
        position := if message.cursorField.Null? then Some(0) else host.toNumber(message.cursorField.text);
      }
      if position.Some? {
        if position.value <= seenSeq { return; }
        seenSeq := position.value;
        lastCursor := Some(if message.cursorField.Is? then message.cursorField.text else host.toText(position.value));
      }
      emitted := emitted + [message];
    }

    /** A connection starts with an empty buffer. */
    method Open()
      modifies this`buffer
      ensures buffer == ""
    {
      buffer := "";
    }

    /** One chunk off the wire: cut off the complete blocks and handle them in order. */
    method Receive(chunk: string) returns (threw: bool)
      modifies this
      ensures var cut := Split(BlankLine, old(buffer) + chunk);
              var handling := HandledAll(host, old(Now()), cut.parts);
              Now() == handling.state && threw == handling.Threw? && buffer == cut.rest
    {
      hide Split, ParsedBlock, Emitted;
      var cut := Split(BlankLine, buffer + chunk);
      var parts := cut.parts;
      buffer := cut.rest;
      threw := false;
      ghost var start := Now();
      for i := 0 to |parts|
        modifies this`seenSeq, this`lastCursor, this`emitted
        invariant !threw && HandledAll(host, start, parts[..i]) == Done(Now())
      {
        assert parts[..i + 1][..i] == parts[..i];
        var parsed := ParseSseBlock(parts[i]);
        if parsed.data.None? || parsed.data.value == "" { continue; }
        var decoded := host.decode(parsed.data.value);
        if decoded.None? {
          ThrewStays(host, start, parts, i + 1);
          threw := true;
          return;
        }
        var message := decoded.value;
        if parsed.id.Some? && parsed.id.value != "" && !message.cursorField.Is? {
          message := message.(cursorField := Is(parsed.id.value));
        }
        Emit(message);
      }
      assert parts[..|parts|] == parts;
    }
  }

  lemma {:induction false} ThrewStays(host: Host, state: State, parts: seq<string>, k: nat)
    requires k <= |parts| && HandledAll(host, state, parts[..k]).Threw?
    ensures HandledAll(host, state, parts) == HandledAll(host, state, parts[..k])
  {
    if k == |parts| {
      assert parts[..k] == parts;
    } else {
      assert parts[..|parts| - 1][..k] == parts[..k];
      ThrewStays(host, state, parts[..|parts| - 1], k);
    }
  }

  // ---------------------------------------------------------------- over a whole connection

  datatype Reading = Reading(handling: Handling, buffer: string)

  /** The client after a list of chunks of one connection. */
  function Received(host: Host, state: State, chunks: seq<string>): Reading
  {
    if chunks == [] then Reading(Done(state), "")
    else
      var before := Received(host, state, chunks[..|chunks| - 1]);
      if before.handling.Threw? then before
      else
        var cut := Split(BlankLine, before.buffer + chunks[|chunks| - 1]);
        Reading(HandledAll(host, before.handling.state, cut.parts), cut.rest)
  }

  lemma {:induction false} HandledAllAppends(host: Host, state: State, a: seq<string>, b: seq<string>)
    ensures var first := HandledAll(host, state, a);
            HandledAll(host, state, a + b)
            == if first.Threw? then first else HandledAll(host, first.state, b)
  {
    hide Handled;
    if b == [] {
      assert a + b == a;
    } else {
      var n := |b| - 1;
      assert (a + b)[..|a| + n] == a + b[..n];
      HandledAllAppends(host, state, a, b[..n]);
    }
  }

  /** Chunk by chunk the client ends where it would with all blocks at hand, unless one threw. */
  lemma {:induction false} ReceivedIsHandled(host: Host, state: State, chunks: seq<string>)
    ensures var got := FeedAll(BlankLine, chunks);
            var all := HandledAll(host, state, got.parts);
            var reading := Received(host, state, chunks);
            && reading.handling == all
            && (all.Done? ==> reading.buffer == got.rest)
  {
    if chunks != [] {
      var n := |chunks| - 1;
      ReceivedIsHandled(host, state, chunks[..n]);
      var before := FeedAll(BlankLine, chunks[..n]);
      HandledAllAppends(host, state, before.parts, Split(BlankLine, before.rest + chunks[n]).parts);
    }
  }

  // ---------------------------------------------------------------- both ends together

  function FrameOf(host: Host, encode: EventLog.Event -> string, event: EventLog.Event): Frame
  {
    Frame(host.toText(event.number), encode(event))
  }

  function MessageOf(host: Host, event: EventLog.Event): Message
  {
    Message(Some(event.number), Is(host.toText(event.number)), event.body)
  }

  /** What `JSON.stringify`, `JSON.parse`, `String` and `Number` are relied on for. */
  ghost predicate Faithful(host: Host, encode: EventLog.Event -> string)
  {
    && (forall e: EventLog.Event :: PlainFrame(FrameOf(host, encode, e)))
    && (forall e: EventLog.Event :: host.decode(encode(e)) == Some(MessageOf(host, e)))
    && (forall n: nat :: host.toNumber(host.toText(n)) == Some(n))
  }

  function FramesOf(host: Host, encode: EventLog.Event -> string, events: seq<EventLog.Event>): (frames: seq<Frame>)
    ensures |frames| == |events|
    ensures forall i :: 0 <= i < |events| ==> frames[i] == FrameOf(host, encode, events[i])
  {
    seq(|events|, i requires 0 <= i < |events| => FrameOf(host, encode, events[i]))
  }

  function MessagesOf(host: Host, events: seq<EventLog.Event>): (messages: seq<Message>)
    ensures |messages| == |events|
    ensures forall i :: 0 <= i < |events| ==> messages[i] == MessageOf(host, events[i])
  {
    seq(|events|, i requires 0 <= i < |events| => MessageOf(host, events[i]))
  }

  /** The client's fields stand for this state of the protocol's client. */
  ghost predicate StandsFor(host: Host, state: State, client: ResumableStream.Client)
  {
    && state.seen == client.seen
    && state.cursor == (if client.cursor.None? then None else Some(host.toText(client.cursor.value)))
    && state.emitted == MessagesOf(host, client.emitted)
  }

  /** The cursor the server gets back is the position the protocol resumes at. */
  lemma CursorTravels(host: Host, encode: EventLog.Event -> string, state: State, client: ResumableStream.Client)
    requires Faithful(host, encode) && StandsFor(host, state, client)
    requires client.cursor.Some? ==> client.cursor.value >= 0
    ensures match client.cursor
            case None => state.cursor == None
            case Some(n) => state.cursor.Some? && host.toNumber(state.cursor.value) == Some(n)
  {
  }

  lemma EmitStandsFor(host: Host, state: State, client: ResumableStream.Client, event: EventLog.Event)
    requires StandsFor(host, state, client)
    ensures StandsFor(host, Emitted(host, state, MessageOf(host, event)), ResumableStream.Emitted(client, event))
  {
    assert MessagesOf(host, client.emitted + [event]) == MessagesOf(host, client.emitted) + [MessageOf(host, event)];
  }

  lemma {:induction false} BlocksAreRead(host: Host, encode: EventLog.Event -> string, state: State,
                                         client: ResumableStream.Client, events: seq<EventLog.Event>,
                                         parts: seq<string>)
    requires Faithful(host, encode) && StandsFor(host, state, client) && |parts| <= |events|
    requires forall i :: 0 <= i < |parts| ==>
               ParsedBlock(parts[i]) == Block(Some(host.toText(events[i].number)), Some(encode(events[i])))
    ensures var handling := HandledAll(host, state, parts);
            && handling.Done?
            && StandsFor(host, handling.state, ResumableStream.ReadAll(client, events[..|parts|]))
  {
    if parts != [] {
      var n := |parts| - 1;
      BlocksAreRead(host, encode, state, client, events, parts[..n]);
      assert events[..n + 1][..n] == events[..n];
      assert PlainFrame(FrameOf(host, encode, events[n]));
      EmitStandsFor(host, HandledAll(host, state, parts[..n]).state, ResumableStream.ReadAll(client, events[..n]),
                    events[n]);
    }
  }

  /**
   The server writes `events` to a connection; the client gets their text in any chunks up to any
   point. It ends in the state the protocol gives it for having read some first events: exactly
   those whose frames arrived whole, all of them when nothing was lost.
   */
  lemma ConnectionIsRead(host: Host, encode: EventLog.Event -> string, state: State,
                         client: ResumableStream.Client, events: seq<EventLog.Event>,
                         chunks: seq<string>, lost: string) returns (k: nat)
    requires Faithful(host, encode) && StandsFor(host, state, client)
    requires Concat(chunks) + lost == Wire(FramesOf(host, encode, events))
    ensures k <= |events|
    ensures var reading := Received(host, state, chunks);
            && reading.handling.Done?
            && StandsFor(host, reading.handling.state, ResumableStream.ReadAll(client, events[..k]))
            && reading.buffer + lost == Wire(FramesOf(host, encode, events[k..]))
    ensures lost == "" ==> k == |events|
    ensures k < |events| ==>
              |Received(host, state, chunks).buffer| < |FormatFrame(FrameOf(host, encode, events[k]))|
  {
    hide HandledAll, FeedAll, Received, StandsFor, Split;
    var frames := FramesOf(host, encode, events);
    StreamReadsBack(frames, chunks, lost);
    ReceivedIsHandled(host, state, chunks);
    var got := FeedAll(BlankLine, chunks);
    k := |got.parts|;
    BlocksAreRead(host, encode, state, client, events, got.parts);
    assert FramesOf(host, encode, events[k..]) == frames[k..];
  }
}
