/**
 Both ends of the event stream over the characters on the wire, for whole runs: the server writes
 frames, the text arrives in chunks of any size, and a connection may be cut anywhere in it. Every such
 run does to the client what a run of the protocol does.
 */
module WireRuns {

  import opened Prelude
  import opened TextSplit
  import opened SseFraming
  import opened WebClient
  import EventLog
  import Stream = ResumableStream

  /** JavaScript's conversions, and how the server encodes an event. */
  datatype Setup = Setup(host: Host, encode: EventLog.Event -> string)

  /** `buffer` is what the client keeps, `unread` what has been written and has not arrived, `missed`
      how many events the client had missed when it connected. */
  datatype Link = Down | Up(buffer: string, unread: string, missed: int)

  datatype World = World(log: EventLog.LogState, client: State, link: Link, history: seq<EventLog.Event>, gapRead: bool)

  datatype Step =
    | Publish(body: string)
    | Connect(hello: string)
    | Arrive(length: nat)
    | Disconnect

  function Begin(limit: int): World
  {
    World(EventLog.LogState(limit, 0, []), State(0, None, []), Down, [], false)
  }

  /** What the server makes of the cursor that the client sends; an empty one is not sent. */
  function CursorOf(host: Host, state: State): EventLog.Cursor
  {
    if state.cursor.None? || state.cursor.value == "" then EventLog.Absent
    else
      match host.toNumber(state.cursor.value)
      case None => EventLog.NotFinite
      case Some(position) => EventLog.After(position)
  }

  function Missed(host: Host, w: World): int
  {
    var cursor := CursorOf(host, w.client);
    if cursor.After? then w.log.number - cursor.position else 0
  }

  function WireOf(x: Setup, events: seq<EventLog.Event>): string
  {
    Wire(FramesOf(x.host, x.encode, events))
  }

  function Arrived(x: Setup, w: World, length: nat): World
    requires w.link.Up? && length <= |w.link.unread|
  {
    var cut := Split(BlankLine, w.link.buffer + w.link.unread[..length]);
    var handling := HandledAll(x.host, w.client, cut.parts);
    var gapRead := w.gapRead || (cut.parts != [] && w.link.missed > Stream.Allowed(w.log.limit));
    if handling.Threw? then World(w.log, handling.state, Down, w.history, gapRead)
    else World(w.log, handling.state, Up(cut.rest, w.link.unread[length..], w.link.missed), w.history, gapRead)
  }

  function Next(x: Setup, w: World, step: Step): World
  {
    match step
    case Publish(body) =>
      var event := EventLog.HelloOf(w.log, body);
      var link := if w.link.Down? then Down
                  else w.link.(unread := w.link.unread + FormatFrame(FrameOf(x.host, x.encode, event)));
      World(EventLog.Published(w.log, body), w.client, link, w.history + [event], w.gapRead)
    case Connect(hello) =>
      var opening := EventLog.Opening(w.log, CursorOf(x.host, w.client), hello);
      World(EventLog.Published(w.log, hello), w.client, Up("", WireOf(x, opening), Missed(x.host, w)),
            w.history + [EventLog.HelloOf(w.log, hello)], w.gapRead)
    case Arrive(length) =>
      if w.link.Down? || length > |w.link.unread| then w else Arrived(x, w, length)
    case Disconnect => w.(link := Down)
  }

  function Run(x: Setup, limit: int, steps: seq<Step>): World
  {
    if steps == [] then Begin(limit) else Next(x, Run(x, limit, steps[..|steps| - 1]), steps[|steps| - 1])
  }

  // ---------------------------------------------------------------- simulation

  ghost predicate LinkStands(x: Setup, link: Link, other: Stream.Link)
  {
    match other
    case Down => link.Down?
    case Up(inFlight, missed) => link.Up? && link.missed == missed && link.buffer + link.unread == WireOf(x, inFlight)
  }

  /** The world of the wire stands for this world of the protocol. */
  ghost predicate Simulates(x: Setup, w: World, v: Stream.World)
  {
    && w.log == v.log && w.history == v.history && w.gapRead == v.gapRead
    && StandsFor(x.host, w.client, v.client) && LinkStands(x, w.link, v.link)
  }

  lemma {:induction false} WireAppends(frames: seq<Frame>, frame: Frame)
    ensures Wire(frames + [frame]) == Wire(frames) + FormatFrame(frame)
  {
    hide FormatFrame;
    if frames == [] {
      assert [] + [frame] == [frame] && [frame][1..] == [];
    } else {
      assert (frames + [frame])[0] == frames[0] && (frames + [frame])[1..] == frames[1..] + [frame];
      WireAppends(frames[1..], frame);
    }
  }

  lemma WrittenAppends(x: Setup, events: seq<EventLog.Event>, event: EventLog.Event)
    ensures WireOf(x, events + [event]) == WireOf(x, events) + FormatFrame(FrameOf(x.host, x.encode, event))
  {
    hide Wire, FormatFrame;
    WireAppends(FramesOf(x.host, x.encode, events), FrameOf(x.host, x.encode, event));
    assert FramesOf(x.host, x.encode, events + [event])
        == FramesOf(x.host, x.encode, events) + [FrameOf(x.host, x.encode, event)];
  }

  lemma SameCursor(x: Setup, state: State, client: Stream.Client)
    requires Faithful(x.host, x.encode) && StandsFor(x.host, state, client)
    requires client.cursor.Some? ==> client.cursor.value >= 0
    ensures CursorOf(x.host, state) ==
            match client.cursor case None => EventLog.Absent case Some(n) => EventLog.After(n)
  {
    if client.cursor.Some? {
      assert PlainFrame(FrameOf(x.host, x.encode, EventLog.Event(client.cursor.value, "")));
    }
  }

  lemma PublishSimulates(x: Setup, w: World, v: Stream.World, body: string)
    requires Simulates(x, w, v)
    ensures Simulates(x, Next(x, w, Publish(body)), Stream.Next(v, Stream.Publish(body)))
  {
    hide StandsFor, WireOf, FormatFrame, EventLog.Published;
    var event := EventLog.HelloOf(w.log, body);
    if v.link.Up? {
      WrittenAppends(x, v.link.inFlight, event);
      var frame := FormatFrame(FrameOf(x.host, x.encode, event));
      assert w.link.buffer + (w.link.unread + frame) == (w.link.buffer + w.link.unread) + frame;
    }
  }

  lemma ConnectSimulates(x: Setup, w: World, v: Stream.World, hello: string)
    requires Faithful(x.host, x.encode) && Simulates(x, w, v)
    requires v.client.cursor.Some? ==> v.client.cursor.value >= 0
    ensures Simulates(x, Next(x, w, Connect(hello)), Stream.Next(v, Stream.Connect(hello)))
  {
    SameCursor(x, w.client, v.client);
    hide StandsFor, WireOf, EventLog.Published, EventLog.Opening, Faithful, CursorOf;
    assert Stream.ResumeAt(v.client) == CursorOf(x.host, w.client);
    var opening := EventLog.Opening(w.log, CursorOf(x.host, w.client), hello);
    assert "" + WireOf(x, opening) == WireOf(x, opening);
  }

  lemma OneChunk(chunk: string)
    ensures Concat([chunk]) == chunk && FeedAll(BlankLine, [chunk]) == Split(BlankLine, chunk)
  {
    hide Split;
    assert [chunk][..0] == [] && "" + chunk == chunk;
    var cut := Split(BlankLine, chunk);
    assert [] + cut.parts == cut.parts;
  }

  /** Of a connection's text, a chunk completes some first events and leaves the text of the others. */
  lemma ChunkReads(x: Setup, state: State, client: Stream.Client, events: seq<EventLog.Event>, chunk: string,
                   lost: string)
    requires Faithful(x.host, x.encode) && StandsFor(x.host, state, client)
    requires chunk + lost == WireOf(x, events)
    ensures var cut := Split(BlankLine, chunk);
            var k := |cut.parts|;
            var handling := HandledAll(x.host, state, cut.parts);
            && k <= |events| && handling.Done?
            && StandsFor(x.host, handling.state, Stream.ReadAll(client, events[..k]))
            && cut.rest + lost == WireOf(x, events[k..])
  {
    hide HandledAll, StandsFor, Split, ParsedBlock, FormatFrame, Stream.ReadAll, Wire, FeedAll;
    var frames := FramesOf(x.host, x.encode, events);
    OneChunk(chunk);
    StreamReadsBack(frames, [chunk], lost);
    var cut := Split(BlankLine, chunk);
    var k := |cut.parts|;
    BlocksAreRead(x.host, x.encode, state, client, events, cut.parts);
    assert FramesOf(x.host, x.encode, events[k..]) == frames[k..];
  }

  lemma ArriveSimulates(x: Setup, w: World, limit: int, protocol: seq<Stream.Step>, length: nat) returns (taken: nat)
    requires Faithful(x.host, x.encode) && Simulates(x, w, Stream.Run(limit, protocol))
    requires w.link.Up? && length <= |w.link.unread|
    ensures Simulates(x, Arrived(x, w, length), Stream.Run(limit, protocol + Stream.Reads(taken)))
  {
    hide StandsFor, Split, HandledAll, Stream.ReadAll, Stream.Run, WireOf, Faithful, Stream.Reads;
    var v := Stream.Run(limit, protocol);
    var chunk, lost := w.link.buffer + w.link.unread[..length], w.link.unread[length..];
    assert w.link.unread == w.link.unread[..length] + lost;
    assert chunk + lost == w.link.buffer + w.link.unread;
    ChunkReads(x, w.client, v.client, v.link.inFlight, chunk, lost);
    taken := |Split(BlankLine, chunk).parts|;
    Stream.ReadsTakeFirst(limit, protocol, taken);
  }

  lemma OneStep(limit: int, protocol: seq<Stream.Step>, step: Stream.Step)
    ensures Stream.Run(limit, protocol + [step]) == Stream.Next(Stream.Run(limit, protocol), step)
  {
    assert (protocol + [step])[..|protocol|] == protocol;
  }

  /** One step on the wire is some steps of the protocol. */
  lemma StepSimulates(x: Setup, w: World, limit: int, before: seq<Stream.Step>, step: Step)
    returns (protocol: seq<Stream.Step>)
    requires Faithful(x.host, x.encode) && Simulates(x, w, Stream.Run(limit, before))
    ensures Simulates(x, Next(x, w, step), Stream.Run(limit, protocol))
  {
    hide Simulates, Arrived, Stream.Run, Stream.Next, Faithful;
    var v := Stream.Run(limit, before);
    protocol := before;
    match step
    case Publish(body) =>
      PublishSimulates(x, w, v, body);
      protocol := before + [Stream.Publish(body)];
      OneStep(limit, before, Stream.Publish(body));
    case Connect(hello) =>
      Stream.RunOk(limit, before);
      ConnectSimulates(x, w, v, hello);
      protocol := before + [Stream.Connect(hello)];
      OneStep(limit, before, Stream.Connect(hello));
    case Arrive(length) =>
      if w.link.Up? && length <= |w.link.unread| {
        var taken := ArriveSimulates(x, w, limit, before, length);
        protocol := before + Stream.Reads(taken);
      }
    case Disconnect =>
      DisconnectSimulates(x, w, v);
      protocol := before + [Stream.Disconnect];
      OneStep(limit, before, Stream.Disconnect);
  }

  lemma DisconnectSimulates(x: Setup, w: World, v: Stream.World)
    requires Simulates(x, w, v)
    ensures Simulates(x, Next(x, w, Disconnect), Stream.Next(v, Stream.Disconnect))
  {
    hide StandsFor;
  }

  /** Every run on the wire stands for a run of the protocol. */
  lemma {:induction false} RunSimulates(x: Setup, limit: int, steps: seq<Step>) returns (protocol: seq<Stream.Step>)
    requires Faithful(x.host, x.encode)
    ensures Simulates(x, Run(x, limit, steps), Stream.Run(limit, protocol))
  {
    hide Next, Faithful;
    if steps == [] {
      protocol := [];
    } else {
      var n := |steps| - 1;
      var before := RunSimulates(x, limit, steps[..n]);
      protocol := StepSimulates(x, Run(x, limit, steps[..n]), limit, before, steps[n]);
    }
  }

  // ---------------------------------------------------------------- what the client has emitted

  /** In every run on the wire, the client has handed on events of the history in order, each once; and
      it skipped one if and only if it read from a connection that came too late. */
  lemma WireRunIsOrdered(x: Setup, limit: int, steps: seq<Step>) returns (events: seq<EventLog.Event>)
    requires Faithful(x.host, x.encode)
    ensures var w := Run(x, limit, steps);
            && w.client.emitted == MessagesOf(x.host, events)
            && Stream.Increasing(events) && Stream.FromHistory(events, w.history)
            && (Stream.Contiguous(events) <==> !w.gapRead)
  {
    hide Run, Stream.Run;
    var protocol := RunSimulates(x, limit, steps);
    Stream.RunOk(limit, protocol);
    events := Stream.Run(limit, protocol).client.emitted;
  }

  /** At every connection the client had missed at most what the log can give back. */
  ghost predicate Timely(x: Setup, limit: int, steps: seq<Step>)
  {
    forall k :: 0 <= k < |steps| && steps[k].Connect? ==>
      Missed(x.host, Run(x, limit, steps[..k])) <= Stream.Allowed(limit)
  }

  lemma {:induction false} TimelyHasNoGap(x: Setup, limit: int, steps: seq<Step>)
    requires Timely(x, limit, steps)
    ensures var w := Run(x, limit, steps);
            && !w.gapRead && w.log.limit == limit && (w.link.Up? ==> w.link.missed <= Stream.Allowed(limit))
  {
    hide Missed, HandledAll, Split, WireOf, Stream.Allowed;
    if steps != [] {
      var n := |steps| - 1;
      assert Timely(x, limit, steps[..n]) by {
        forall k | 0 <= k < n && steps[..n][k].Connect?
          ensures Missed(x.host, Run(x, limit, steps[..n][..k])) <= Stream.Allowed(limit)
        {
          assert steps[..n][..k] == steps[..k];
        }
      }
      TimelyHasNoGap(x, limit, steps[..n]);
      assert steps[n].Connect? ==> Missed(x.host, Run(x, limit, steps[..n])) <= Stream.Allowed(limit);
    }
  }

  /** A client that always comes back in time has handed on an unbroken stretch of the history, however
      the text was cut into chunks and wherever connections broke off. */
  lemma TimelyRunEmitsHistory(x: Setup, limit: int, steps: seq<Step>) returns (first: nat, last: nat)
    requires Faithful(x.host, x.encode) && Timely(x, limit, steps)
    ensures var w := Run(x, limit, steps);
            w.client.emitted == [] || (
              && 1 <= first <= last <= |w.history|
              && w.client.emitted == MessagesOf(x.host, w.history[first - 1..last]))
  {
    hide Run;
    TimelyHasNoGap(x, limit, steps);
    var events := WireRunIsOrdered(x, limit, steps);
    var w := Run(x, limit, steps);
    first, last := 0, 0;
    if events != [] {
      Stream.ContiguousIsStretch(events, w.history);
      first, last := events[0].number, events[|events| - 1].number;
      assert events == w.history[first - 1..last];
    }
  }
}
