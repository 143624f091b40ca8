/**
 What the subscribers of a watch know. They see payloads only, so parts of a view that no payload
 carries stay unknown to them, and differences in those parts send events that show nothing new.
 */
module ProjectionBoard {

  import opened Prelude
  import opened Projection
  import opened ProjectionRuns

  /** What a subscriber of one watch generation was shown last. */
  datatype Board = Board(
    service: Option<string>, status: Option<string>, counts: Option<string>, todo: Option<string>,
    channel: Option<string>, sessions: set<string>)

  function Told(b: Board, payload: Payload): Board
  {
    match payload
    case OpsPayload(_, status, counts) => b.(status := Some(status), counts := Some(counts))
    case ServicePayload(service) => b.(service := Some(service))
    case TodoPayload(todo, status, counts) => b.(todo := Some(todo), status := Some(status), counts := Some(counts))
    case EvolutionPayload(status) => b.(status := Some(status))
    case ChannelPayload(channel) => b.(channel := Some(channel))
    case ConversationPayload(session, removed) =>
      b.(sessions := if removed then b.sessions - {session} else b.sessions + {session})
    case _ => b
  }

  function BoardOf(log: seq<Logged>, generation: nat): Board
  {
    if log == [] then Board(None, None, None, None, None, {})
    else
      var before := BoardOf(log[..|log| - 1], generation);
      var entry := log[|log| - 1];
      if entry.generation == generation then Told(before, PayloadOf(entry.event)) else before
  }

  /** What a subscriber would know if every refresh published everything. */
  function Everything(views: Views, sessions: set<string>): Board
  {
    Board(Some(views.service.shown), Some(views.evolution.status), Some(views.evolution.counts),
          Some(views.todo.shown), Some(views.channel.shown), sessions)
  }

  // ---------------------------------------------------------------- the board and its origins

  function ShownOf(v: Option<View>): Option<string>
  {
    if v.None? then None else Some(v.value.shown)
  }

  function Visible(o: Origins): Board
  {
    Board(ShownOf(o.service), if o.latest.None? then None else Some(o.latest.value.status),
          if o.attached.None? then None else Some(o.attached.value.counts),
          ShownOf(o.todo), ShownOf(o.channel), o.sessions)
  }

  lemma VisibleStep(o: Origins, event: Event)
    ensures Visible(Traced(o, event)) == Told(Visible(o), PayloadOf(event))
  {
  }

  lemma NothingVisible()
    ensures Visible(NOTHING) == Board(None, None, None, None, None, {})
  {
  }

  /** The board shows of the views behind the last events what their payloads carry. */
  lemma {:induction false} BoardIsVisible(log: seq<Logged>, generation: nat)
    ensures BoardOf(log, generation) == Visible(OriginsOf(log, generation))
  {
    if log == [] {
      NothingVisible();
    } else {
      hide Visible, Traced, Told, PayloadOf;
      var entry := log[|log| - 1];
      VisibleStep(OriginsOf(log[..|log| - 1], generation), entry.event);
      BoardIsVisible(log[..|log| - 1], generation);
    }
  }

  /** The board shows, of each partition, a view with the fingerprint that is kept. */
  ghost predicate Agrees(d: Digest, b: Board, last: Option<Prints>)
  {
    match last
    case None => b.service.None? && b.status.None? && b.counts.None? && b.todo.None? && b.channel.None?
    case Some(p) =>
      && (exists v :: d.view(v) == p.service && b.service == Some(v.shown))
      && (exists v :: d.evolution(v) == p.evolution && b.status == Some(v.status))
      && (exists v :: d.view(v) == p.todo && b.todo == Some(v.shown))
      && (exists v :: d.view(v) == p.channel && b.channel == Some(v.shown))
      && b.counts.Some?
  }

  lemma MatchesAgrees(d: Digest, o: Origins, last: Option<Prints>)
    requires Matches(d, o, last)
    ensures Agrees(d, Visible(o), last)
  {
  }

  /** In every run, the subscribers of the current watch were shown last, for each partition, a view
      with the fingerprint that is kept; and unless a view threw late, they know exactly the sessions
      that are kept. */
  lemma RunAgrees(d: Digest, calls: seq<Call>)
    ensures var s := Run(d, calls);
            && Agrees(d, BoardOf(s.log, s.generation), s.last)
            && ((forall c :: c in calls ==> CallUnbroken(c)) ==>
                  BoardOf(s.log, s.generation).sessions == IdsOf(s.lastSessions))
  {
    hide Run, Agrees, CallUnbroken;
    var s := Run(d, calls);
    RunKeeps(d, calls);
    BoardIsVisible(s.log, s.generation);
    MatchesAgrees(d, OriginsOf(s.log, s.generation), s.last);
  }

  // ---------------------------------------------------------------- differences against everything

  ghost predicate Injective(d: Digest)
  {
    && (forall a, b :: d.view(a) == d.view(b) ==> a == b)
    && (forall a, b :: d.evolution(a) == d.evolution(b) ==> a == b)
  }

  lemma MatchesMeans(d: Digest, o: Origins, views: Views)
    requires Injective(d) && Matches(d, o, Some(PrintsOf(d, views)))
    ensures Visible(o) == Everything(views, o.sessions).(counts := Visible(o).counts)
  {
  }

  lemma RefreshTold(d: Digest, s: State, subject: string, partitions: set<string>, round: Round)
    requires Injective(d) && Faithful(d, s) && round.fetch.Fetched? && !round.fetch.breaks
    requires Current(s, subject, s.generation) && AsksForMore(s, partitions)
    requires Current(Reentered(s.(revision := s.revision + 1), round), subject, s.generation)
    ensures var views := round.fetch.views;
            var b := BoardOf(s.log, s.generation);
            var b' := BoardOf(Refreshed(d, s, subject, s.generation, partitions, round).log, s.generation);
            && b' == Everything(views, b'.sessions).(counts := b'.counts)
            && b'.counts == if ShowsCounts(s.last, PrintsOf(d, views)) then Some(views.evolution.counts) else b.counts
  {
    hide Reentered, Matches, Refreshed, PrintsOf, Injective, ChannelOnly, Faithful, Current, ShowsCounts, BoardOf,
      OriginsOf;
    var g := s.generation;
    var after := Refreshed(d, s, subject, g, partitions, round);
    ChannelOnlyIs(s, partitions);
    FullRefreshTraced(d, s, subject, g, partitions, round);
    BoardIsVisible(s.log, g);
    BoardIsVisible(after.log, g);
    MatchesMeans(d, OriginsOf(after.log, g), round.fetch.views);
  }

  /** After a full refresh that came back to its watch, in any run, the subscriber knows what it would
      know if everything had been published, except that the counts are current if and only if the
      service or the todo view has changed too, or what was shown before is still right. */
  lemma RefreshShows(d: Digest, calls: seq<Call>, subject: string, partitions: set<string>, round: Round)
    requires Injective(d) && round.fetch.Fetched? && !round.fetch.breaks
    requires var s := Run(d, calls);
             && Current(s, subject, s.generation)
             && (partitions == {}
                 || exists p :: p in partitions && p != "conversation" && (s.last.None? || p != "channel"))
             && Current(Reentered(s.(revision := s.revision + 1), round), subject, s.generation)
    ensures var s, views := Run(d, calls), round.fetch.views;
            var b := BoardOf(s.log, s.generation);
            var b' := BoardOf(Refreshed(d, s, subject, s.generation, partitions, round).log, s.generation);
            && b' == Everything(views, b'.sessions).(counts := b'.counts)
            && (b' == Everything(views, b'.sessions) <==>
                ShowsCounts(s.last, PrintsOf(d, views)) || b.counts == Some(views.evolution.counts))
  {
    hide Run, Reentered, Refreshed, PrintsOf, Injective, ChannelOnly, Faithful, Current, ShowsCounts, BoardOf;
    RunKeeps(d, calls);
    assert AsksForMore(Run(d, calls), partitions);
    RefreshTold(d, Run(d, calls), subject, partitions, round);
  }

  // ---------------------------------------------------------------- events that show nothing new

  /** What an event says of its own partition. */
  function SaysOf(event: Event): Option<string>
  {
    match PayloadOf(event)
    case ServicePayload(service) => Some(service)
    case TodoPayload(todo, _, _) => Some(todo)
    case EvolutionPayload(status) => Some(status)
    case ChannelPayload(channel) => Some(channel)
    case _ => None
  }

  /** The event before in the partition of `event`. */
  function Previous(o: Origins, event: Event): Option<Event>
  {
    match event
    case ServiceStatus(_) => if o.service.None? then None else Some(ServiceStatus(o.service.value))
    case TodoUpdated(_, e) => if o.todo.None? then None else Some(TodoUpdated(o.todo.value, e))
    case EvolutionUpdated(_) => if o.evolution.None? then None else Some(EvolutionUpdated(o.evolution.value))
    case ChannelUpdated(_) => if o.channel.None? then None else Some(ChannelUpdated(o.channel.value))
    case _ => None
  }

  /** Of two events of one partition, only what neither of them shows differs. */
  predicate DifferUnseen(event: Event, previous: Event)
  {
    match (event, previous)
    case (ServiceStatus(v), ServiceStatus(w)) => v.hidden != w.hidden && v == w.(hidden := v.hidden)
    case (TodoUpdated(v, _), TodoUpdated(w, _)) => v.hidden != w.hidden && v == w.(hidden := v.hidden)
    case (ChannelUpdated(v), ChannelUpdated(w)) => v.hidden != w.hidden && v == w.(hidden := v.hidden)
    case (EvolutionUpdated(v), EvolutionUpdated(w)) =>
      (v.counts != w.counts || v.hidden != w.hidden) && v == w.(counts := v.counts, hidden := v.hidden)
    case _ => false
  }

  /** In every run, an event says the same of its partition as the event before if and only if the
      views differ, and only in what neither event shows. */
  lemma RepeatsExactly(d: Digest, calls: seq<Call>, i: nat)
    requires i < |Run(d, calls).log|
    ensures var log := Run(d, calls).log;
            var event, previous := log[i].event, Previous(OriginsOf(log[..i], log[i].generation), log[i].event);
            previous.Some? ==> (SaysOf(event) == SaysOf(previous.value) <==> DifferUnseen(event, previous.value))
  {
    hide Run, OriginsOf;
    RunKeeps(d, calls);
    var log := Run(d, calls).log;
    assert News(d, OriginsOf(log[..i], log[i].generation), log[i].event);
  }

  function Plainly(views: Views, sessions: seq<Session>): Round
  {
    Round(Fetched(views, sessions, false), [], Undisturbed)
  }

  /** A refresh for partitions other than the sessions, when only one view has changed. */
  lemma OneEvent(d: Digest, s: State, subject: string, partitions: set<string>, views: Views, next: Views,
                 sessions: seq<Session>, event: Event)
    requires Current(s, subject, s.generation) && s.last == Some(PrintsOf(d, views))
    requires partitions == {} || exists p :: p in partitions && p != "channel"
    requires "all" !in partitions && "conversation" !in partitions
    requires PartitionEvents(s.last, PrintsOf(d, next), next, []) == [event]
    ensures Refreshed(d, s, subject, s.generation, partitions, Plainly(next, sessions)).log
            == s.log + [Logged(s.generation, s.batches, subject, s.revision + 1, event)]
  {
    assert AsksForMore(s, partitions);
    ChannelOnlyIs(s, partitions);
    hide ChannelOnly, PartitionEvents, PrintsOf;
  }

  lemma FaithfulMatches(d: Digest, s: State)
    requires Faithful(d, s)
    ensures Matches(d, OriginsOf(s.log, s.generation), s.last)
  {
  }

  /** One view differs, so one event is due. */
  lemma OneChange(d: Digest, views: Views, next: Views, event: Event)
    requires Injective(d)
    requires || (next == views.(evolution := next.evolution) && next.evolution != views.evolution
                 && event == EvolutionUpdated(next.evolution))
             || (next == views.(todo := next.todo) && next.todo != views.todo
                 && event == TodoUpdated(next.todo, next.evolution))
    ensures PartitionEvents(Some(PrintsOf(d, views)), PrintsOf(d, next), next, []) == [event]
  {
  }

  lemma OneEventShown(d: Digest, s: State, subject: string, partitions: set<string>, views: Views, next: Views,
                      sessions: seq<Session>, event: Event)
    requires Current(s, subject, s.generation) && s.last == Some(PrintsOf(d, views))
    requires partitions == {} || exists p :: p in partitions && p != "channel"
    requires "all" !in partitions && "conversation" !in partitions
    requires PartitionEvents(s.last, PrintsOf(d, next), next, []) == [event]
    ensures var after := Refreshed(d, s, subject, s.generation, partitions, Plainly(next, sessions));
            && |after.log| == |s.log| + 1
            && BoardOf(after.log, s.generation) == Told(BoardOf(s.log, s.generation), PayloadOf(event))
  {
    hide PartitionEvents, Refreshed, PrintsOf, BoardOf, Told, PayloadOf;
    OneEvent(d, s, subject, partitions, views, next, sessions, event);
    ShownAgain(s.log, Logged(s.generation, s.batches, subject, s.revision + 1, event));
  }

  lemma ShownBefore(d: Digest, s: State, views: Views)
    requires Injective(d) && Faithful(d, s) && s.last == Some(PrintsOf(d, views))
    ensures var b := BoardOf(s.log, s.generation); b == Everything(views, b.sessions).(counts := b.counts)
  {
    hide Injective, Faithful, Matches, PrintsOf, BoardOf, OriginsOf;
    FaithfulMatches(d, s);
    BoardIsVisible(s.log, s.generation);
    MatchesMeans(d, OriginsOf(s.log, s.generation), views);
  }

  /** When only the counts of the evolution view change, an event goes out, but the board stays as it
      was: the new counts are not on it. */
  lemma CountsUnseen(d: Digest, s: State, subject: string, partitions: set<string>, views: Views, counts: string,
                     sessions: seq<Session>)
    requires Injective(d) && Faithful(d, s)
    requires Current(s, subject, s.generation) && s.last == Some(PrintsOf(d, views))
    requires partitions == {} || exists p :: p in partitions && p != "channel"
    requires "all" !in partitions && "conversation" !in partitions
    requires counts != views.evolution.counts
    ensures var next := views.(evolution := views.evolution.(counts := counts));
            var after := Refreshed(d, s, subject, s.generation, partitions, Plainly(next, sessions));
            && |after.log| == |s.log| + 1 && BoardOf(after.log, s.generation) == BoardOf(s.log, s.generation)
            && (BoardOf(s.log, s.generation).counts == Some(views.evolution.counts) ==>
                  BoardOf(after.log, s.generation).counts != Some(counts))
  {
    var next := views.(evolution := views.evolution.(counts := counts));
    var event := EvolutionUpdated(next.evolution);
    hide PartitionEvents, Refreshed, PrintsOf, Faithful, Injective, Current, BoardOf;
    OneChange(d, views, next, event);
    OneEventShown(d, s, subject, partitions, views, next, sessions, event);
    ShownBefore(d, s, views);
  }

  lemma ShownAgain(log: seq<Logged>, entry: Logged)
    ensures BoardOf(log + [entry], entry.generation) == Told(BoardOf(log, entry.generation), PayloadOf(entry.event))
  {
    assert (log + [entry])[..|log|] == log;
  }

  /** When only what stripping takes out of the todo view changes, such as the content of a fact, an
      event goes out that repeats what is shown of it. */
  lemma TodoUnseen(d: Digest, s: State, subject: string, partitions: set<string>, views: Views, hidden: string,
                   sessions: seq<Session>)
    requires Injective(d) && Faithful(d, s)
    requires Current(s, subject, s.generation) && s.last == Some(PrintsOf(d, views))
    requires partitions == {} || exists p :: p in partitions && p != "channel"
    requires "all" !in partitions && "conversation" !in partitions
    requires hidden != views.todo.hidden
    ensures var next := views.(todo := views.todo.(hidden := hidden));
            var after := Refreshed(d, s, subject, s.generation, partitions, Plainly(next, sessions));
            var b := BoardOf(s.log, s.generation);
            && |after.log| == |s.log| + 1
            && BoardOf(after.log, s.generation) == b.(counts := Some(views.evolution.counts))
  {
    var next := views.(todo := views.todo.(hidden := hidden));
    var event := TodoUpdated(next.todo, next.evolution);
    hide PartitionEvents, Refreshed, PrintsOf, Faithful, Injective, Current, BoardOf;
    OneChange(d, views, next, event);
    OneEventShown(d, s, subject, partitions, views, next, sessions, event);
    ShownBefore(d, s, views);
  }

  /** Such states are reached: by a watch and its first full refresh. */
  lemma FirstRefreshIsCurrent(d: Digest, subject: string, views: Views, sessions: seq<Session>)
    ensures var s := Refreshed(d, Watched(INITIAL, subject, true), subject, 2, {"all"}, Plainly(views, sessions));
            && Faithful(d, s) && Current(s, subject, s.generation) && s.last == Some(PrintsOf(d, views))
            && BoardOf(s.log, s.generation).counts == Some(views.evolution.counts)
  {
    var s := Watched(INITIAL, subject, true);
    var round := Plainly(views, sessions);
    assert NoRepeat(d, []) && Faithful(d, INITIAL);
    WatchedKeeps(d, INITIAL, subject, true);
    assert "all" in {"all"} && !ChannelOnly(s, {"all"});
    var after := Refreshed(d, s, subject, 2, {"all"}, round);
    FullRefreshTraced(d, s, subject, 2, {"all"}, round);
    BoardIsVisible(after.log, 2);
    hide FullRound;
  }
}
