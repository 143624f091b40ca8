/**
 The event stream as a protocol between one server log and one client that loses its connection and
 resumes. Every step of either side, in any order, is a `Step`; a run is a list of steps.
 */
module ResumableStream {

  import opened Prelude
  import opened EventLog

  // ---------------------------------------------------------------- the client

  /** `seenSeq` and `lastCursor`, and what the listeners were called with. */
  datatype Client = Client(seen: int, cursor: Option<int>, emitted: seq<Event>)

  /** `emit`, for an event the client can place: everything this server writes carries a number. */
  function Emitted(client: Client, event: Event): Client
  {
    if event.number <= client.seen then client
    else Client(event.number, Some(event.number), client.emitted + [event])
  }

  function ReadAll(client: Client, events: seq<Event>): Client
    decreases |events|
  {
    if events == [] then client
    else Emitted(ReadAll(client, events[..|events| - 1]), events[|events| - 1])
  }

  function ResumeAt(client: Client): Cursor
  {
    match client.cursor
    case None => Absent
    case Some(position) => After(position)
  }

  // ---------------------------------------------------------------- the world

  /** Written by the server and not yet read by the client; `missed` is how many events the client
      had missed when it connected. */
  datatype Link = Down | Up(inFlight: seq<Event>, missed: int)

  /** `history` is every event ever published; `gapRead` says that the client has read from a
      connection at whose start it had missed more than the log can give back. */
  datatype World = World(log: LogState, client: Client, link: Link, history: seq<Event>, gapRead: bool)

  datatype Step =
    | Publish(body: string)
    | Connect(hello: string)
    | Read
    | Disconnect

  function Start(limit: int): World
  {
    World(LogState(limit, 0, []), Client(0, None, []), Down, [], false)
  }

  /** The most events a client may have missed and still be given all of them: the hello takes a
      place in the log, except that it is sent even when the log can hold nothing. */
  function Allowed(limit: int): nat
  {
    if limit <= 1 then 0 else limit - 1
  }

  function Missed(world: World): int
  {
    if world.client.cursor.None? then 0 else world.log.number - world.client.cursor.value
  }

  function Next(world: World, step: Step): World
  {
    match step
    case Publish(body) =>
      var event := HelloOf(world.log, body);
      World(Published(world.log, body), world.client,
            if world.link.Up? then world.link.(inFlight := world.link.inFlight + [event]) else Down,
            world.history + [event], world.gapRead)
    case Connect(hello) =>
      World(Published(world.log, hello), world.client,
            Up(Opening(world.log, ResumeAt(world.client), hello), Missed(world)),
            world.history + [HelloOf(world.log, hello)], world.gapRead)
    case Read =>
      if world.link.Down? || world.link.inFlight == [] then world
      else World(world.log, Emitted(world.client, world.link.inFlight[0]),
                 world.link.(inFlight := world.link.inFlight[1..]), world.history,
                 world.gapRead || world.link.missed > Allowed(world.log.limit))
    case Disconnect => world.(link := Down)
  }

  function Run(limit: int, steps: seq<Step>): World
  {
    if steps == [] then Start(limit)
    else Next(Run(limit, steps[..|steps| - 1]), steps[|steps| - 1])
  }

  // ---------------------------------------------------------------- invariant

  ghost predicate Contiguous(events: seq<Event>)
  {
    forall i :: 0 < i < |events| ==> events[i].number == events[i - 1].number + 1
  }

  ghost predicate Increasing(events: seq<Event>)
  {
    forall i, j :: 0 <= i < j < |events| ==> events[i].number < events[j].number
  }

  /** Each event emitted is the one published under its number. */
  ghost predicate FromHistory(events: seq<Event>, history: seq<Event>)
  {
    forall i :: 0 <= i < |events| ==>
      1 <= events[i].number <= |history| && events[i] == history[events[i].number - 1]
  }

  ghost predicate ClientOk(client: Client, history: seq<Event>)
  {
    && 0 <= client.seen <= |history|
    && client.cursor == (if client.emitted == [] then None else Some(client.seen))
    && client.seen == (if client.emitted == [] then 0 else client.emitted[|client.emitted| - 1].number)
    && Increasing(client.emitted)
    && FromHistory(client.emitted, history)
  }

  /** What is in flight is the rest of the history, from a place the client has not passed: right
      where the client stands when it missed no more than allowed, further on when it missed more
      and has not read from this connection. */
  ghost predicate LinkOk(world: World)
  {
    world.link.Up? ==>
      var start := |world.history| - |world.link.inFlight|;
      && 0 <= world.client.seen <= start
      && world.link.inFlight == world.history[start..]
      && (world.link.inFlight == [] ==> world.client.seen == |world.history| > 0)
      && (world.client.emitted == [] ==> world.link.missed == 0)
      && (world.client.emitted != [] && world.link.missed <= Allowed(world.log.limit) ==>
            world.client.seen == start)
      && (world.client.emitted != [] && world.link.missed > Allowed(world.log.limit) && !world.gapRead ==>
            world.client.seen < start)
  }

  ghost predicate Inv(world: World)
  {
    && Holds(world.log, world.history)
    && ClientOk(world.client, world.history)
    && LinkOk(world)
    && (Contiguous(world.client.emitted) <==> !world.gapRead)
  }

  lemma StartOk(limit: int)
    ensures Inv(Start(limit))
  {
  }

  lemma PublishOk(world: World, body: string)
    requires Inv(world)
    ensures Inv(Next(world, Publish(body)))
  {
    PublishedHolds(world.log, world.history, body);
    var world' := Next(world, Publish(body));
    if world.link.Up? {
      var start := |world.history| - |world.link.inFlight|;
      assert world'.link.inFlight == world'.history[start..];
    }
  }

  lemma ConnectOk(world: World, hello: string)
    requires Inv(world)
    ensures Inv(Next(world, Connect(hello)))
  {
    hide Opening;
    PublishedHolds(world.log, world.history, hello);
    OpeningIsSuffix(world.log, world.history, ResumeAt(world.client), hello);
    ExactBound(world.log, world.client.seen);
    var world' := Next(world, Connect(hello));
    var start := OpeningStart(world.log, ResumeAt(world.client));
    assert world'.link.inFlight == world'.history[start..];
    assert |world'.history| - |world'.link.inFlight| == start;
  }

  /** Nothing is skipped exactly when no more was missed than the log gives back beside the hello. */
  lemma ExactBound(log: LogState, seen: int)
    requires 0 <= seen <= log.number
    ensures seen <= OpeningStart(log, After(seen))
    ensures OpeningStart(log, After(seen)) == seen <==> log.number - seen <= Allowed(log.limit)
  {
  }

  lemma ReadOk(world: World)
    requires Inv(world)
    ensures Inv(Next(world, Read))
  {
    if world.link.Up? && world.link.inFlight != [] {
      var start := |world.history| - |world.link.inFlight|;
      assert world.link.inFlight[0] == world.history[start];
      assert world.link.inFlight[1..] == world.history[start + 1..];
      EmitOk(world.client, world.history, start);
    }
  }

  lemma EmitOk(client: Client, history: seq<Event>, start: nat)
    requires IsHistory(history) && ClientOk(client, history) && client.seen <= start < |history|
    ensures var client' := Emitted(client, history[start]);
            && ClientOk(client', history) && client'.seen == start + 1 && client'.emitted != []
            && (Contiguous(client'.emitted)
                <==> Contiguous(client.emitted) && (client.emitted == [] || client.seen == start))
  {
    AppendKeeps(client.emitted, history[start]);
  }

  lemma AppendKeeps(events: seq<Event>, event: Event)
    requires Increasing(events)
    requires events != [] ==> events[|events| - 1].number < event.number
    ensures Increasing(events + [event])
    ensures Contiguous(events + [event])
            <==> Contiguous(events) && (events == [] || event.number == events[|events| - 1].number + 1)
  {
    var longer := events + [event];
    assert forall i :: 0 <= i < |events| ==> longer[i] == events[i];
    if Contiguous(longer) {
      forall i | 0 < i < |events| ensures events[i].number == events[i - 1].number + 1 {
        assert longer[i].number == longer[i - 1].number + 1;
      }
      if events != [] { assert longer[|events|].number == longer[|events| - 1].number + 1; }
    }
  }

  lemma {:induction false} RunOk(limit: int, steps: seq<Step>)
    ensures Inv(Run(limit, steps)) && Run(limit, steps).log.limit == limit
  {
    if steps == [] {
      StartOk(limit);
    } else {
      var before := Run(limit, steps[..|steps| - 1]);
      RunOk(limit, steps[..|steps| - 1]);
      match steps[|steps| - 1] {
        case Publish(body) => PublishOk(before, body);
        case Connect(hello) => ConnectOk(before, hello);
        case Read => ReadOk(before);
        case Disconnect =>
      }
    }
  }

  // ---------------------------------------------------------------- what the stream promises

  /** No run ever emits an event twice or out of order, or one that was not published so. */
  lemma NeverTwiceNeverBack(limit: int, steps: seq<Step>)
    ensures Increasing(Run(limit, steps).client.emitted)
    ensures FromHistory(Run(limit, steps).client.emitted, Run(limit, steps).history)
  {
    RunOk(limit, steps);
  }

  function Reads(k: nat): seq<Step>
  {
    if k == 0 then [] else Reads(k - 1) + [Read]
  }

  /** `k` reads hand the client the first `k` events in flight, and leave the rest in flight. */
  lemma {:induction false} ReadsTakeFirst(limit: int, steps: seq<Step>, k: nat)
    requires Run(limit, steps).link.Up? && k <= |Run(limit, steps).link.inFlight|
    ensures var before, after := Run(limit, steps), Run(limit, steps + Reads(k));
            && after.client == ReadAll(before.client, before.link.inFlight[..k])
            && after.link == before.link.(inFlight := before.link.inFlight[k..])
            && after.log == before.log && after.history == before.history
            && after.gapRead == (before.gapRead || (k > 0 && before.link.missed > Allowed(before.log.limit)))
  {
    hide Emitted, Allowed;
    var inFlight := Run(limit, steps).link.inFlight;
    if k == 0 {
      assert steps + Reads(0) == steps && inFlight[0..] == inFlight;
    } else {
      ReadsTakeFirst(limit, steps, k - 1);
      assert (steps + Reads(k))[..|steps + Reads(k)| - 1] == steps + Reads(k - 1);
      assert inFlight[..k][..k - 1] == inFlight[..k - 1];
      assert inFlight[k - 1..][1..] == inFlight[k..];
    }
  }

  /** A run has a gap exactly when something was read from a connection that came too late. */
  lemma GaplessExactly(limit: int, steps: seq<Step>)
    ensures Contiguous(Run(limit, steps).client.emitted) <==> !Run(limit, steps).gapRead
  {
    RunOk(limit, steps);
  }

  /** At every connection of the run the client had missed at most what the log can give back. */
  ghost predicate InTime(limit: int, steps: seq<Step>)
  {
    forall i :: 0 <= i < |steps| && steps[i].Connect? ==> Missed(Run(limit, steps[..i])) <= Allowed(limit)
  }

  lemma {:induction false} InTimeHasNoGap(limit: int, steps: seq<Step>)
    requires InTime(limit, steps)
    ensures !Run(limit, steps).gapRead
    ensures Run(limit, steps).link.Up? ==> Run(limit, steps).link.missed <= Allowed(limit)
  {
    if steps != [] {
      var n := |steps| - 1;
      forall i | 0 <= i < n && steps[..n][i].Connect?
        ensures Missed(Run(limit, steps[..n][..i])) <= Allowed(limit)
      {
        assert steps[..n][..i] == steps[..i];
      }
      InTimeHasNoGap(limit, steps[..n]);
      RunOk(limit, steps[..n]);
    }
  }

  /** A client that always comes back in time emits an unbroken stretch of the history. */
  lemma InTimeEmitsHistory(limit: int, steps: seq<Step>)
    requires InTime(limit, steps)
    ensures var world := Run(limit, steps);
            var emitted := world.client.emitted;
            emitted == [] || (
              && 1 <= emitted[0].number <= world.client.seen <= |world.history|
              && emitted == world.history[emitted[0].number - 1..world.client.seen])
  {
    InTimeHasNoGap(limit, steps);
    RunOk(limit, steps);
    var world := Run(limit, steps);
    if world.client.emitted != [] {
      ContiguousIsStretch(world.client.emitted, world.history);
    }
  }

  lemma ContiguousIsStretch(events: seq<Event>, history: seq<Event>)
    requires Contiguous(events) && FromHistory(events, history) && events != []
    ensures var first, last := events[0].number, events[|events| - 1].number;
            1 <= first <= last <= |history| && events == history[first - 1..last]
  {
    forall i | 0 <= i < |events| ensures events[i].number == events[0].number + i {
      ContiguousCounts(events, i);
    }
  }

  lemma {:induction false} ContiguousCounts(events: seq<Event>, i: nat)
    requires Contiguous(events) && i < |events|
    ensures events[i].number == events[0].number + i
  {
    if i > 0 { ContiguousCounts(events, i - 1); }
  }

  /** A client that is connected and has read everything is up to date. */
  lemma CaughtUp(limit: int, steps: seq<Step>)
    requires Run(limit, steps).link.Up? && Run(limit, steps).link.inFlight == []
    ensures var world := Run(limit, steps);
            && world.client.emitted != [] && world.history != []
            && world.client.emitted[|world.client.emitted| - 1] == world.history[|world.history| - 1]
  {
    RunOk(limit, steps);
  }

  /** The bound is exact: a client that missed one event more, and reads on, has a gap. */
  lemma TooLateHasGap(limit: int, steps: seq<Step>, hello: string)
    requires Missed(Run(limit, steps)) > Allowed(limit)
    ensures !Contiguous(Run(limit, steps + [Connect(hello), Read]).client.emitted)
  {
    var connect := steps + [Connect(hello)];
    var read := steps + [Connect(hello), Read];
    assert connect[..|steps|] == steps && read[..|steps| + 1] == connect;
    RunOk(limit, steps);
    RunOk(limit, connect);
    GaplessExactly(limit, read);
  }
}
