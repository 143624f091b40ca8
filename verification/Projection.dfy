/**
 The projection watcher as a state machine: which events a refresh publishes, given the fingerprints
 of what was published before. Views come in as they are after projection; a fetch may re-enter the
 watcher before it returns, because the services it calls announce rebuilds synchronously.
 */
module Projection {

  import opened Prelude

  // ---------------------------------------------------------------- views and events

  /** A view: what an event shows of it, and what stripping and redaction take out of the event. The
      fingerprint covers both. */
  datatype View = View(shown: string, hidden: string)

  /** `status` is cycle, status, backlog and health, `counts` the open cycles and the attention count. */
  datatype Evolution = Evolution(status: string, counts: string, hidden: string)

  datatype Views = Views(service: View, evolution: Evolution, todo: View, channel: View)

  datatype Session = Session(id: string, content: string)

  /** The fingerprints of a session's text and of the views. Nothing is assumed of them. */
  datatype Digest = Digest(text: string -> int, view: View -> int, evolution: Evolution -> int)

  /** An event, with the views it is made from. */
  datatype Event =
    | OpsUpdated(service: View, evolution: Evolution)
    | ServiceStatus(service: View)
    | TodoUpdated(todo: View, evolution: Evolution)
    | EvolutionUpdated(evolution: Evolution)
    | ConversationUpdated(session: string, removed: bool)
    | ChannelUpdated(channel: View)
    | RefreshFailed
    | EvolutionStale

  /** What is sent for an event. */
  datatype Payload =
    | OpsPayload(service: string, status: string, counts: string)
    | ServicePayload(service: string)
    | TodoPayload(todo: string, status: string, counts: string)
    | EvolutionPayload(status: string)
    | ConversationPayload(session: string, removed: bool)
    | ChannelPayload(channel: string)
    | FailurePayload
    | StalePayload

  /** The event of the evolution partition leaves the counts out; the other two carry them. */
  function PayloadOf(event: Event): Payload
  {
    match event
    case OpsUpdated(service, evolution) => OpsPayload(service.shown, evolution.status, evolution.counts)
    case ServiceStatus(service) => ServicePayload(service.shown)
    case TodoUpdated(todo, evolution) => TodoPayload(todo.shown, evolution.status, evolution.counts)
    case EvolutionUpdated(evolution) => EvolutionPayload(evolution.status)
    case ConversationUpdated(session, removed) => ConversationPayload(session, removed)
    case ChannelUpdated(channel) => ChannelPayload(channel.shown)
    case RefreshFailed => FailurePayload
    case EvolutionStale => StalePayload
  }

  /** An event on the bus. `generation` and `batch` are not sent: they say which watch it belongs to
      and which call published it. */
  datatype Logged = Logged(generation: nat, batch: nat, subject: string, revision: int, event: Event)

  // ---------------------------------------------------------------- state

  datatype Prints = Prints(service: int, evolution: int, todo: int, channel: int)

  datatype SessionPrint = SessionPrint(id: string, mark: int)

  datatype State = State(
    subject: Option<string>, watching: bool, revision: int, generation: nat,
    inFlight: bool, dirty: bool, pendingReason: string, pending: set<string>,
    last: Option<Prints>, lastSessions: Option<seq<SessionPrint>>,
    log: seq<Logged>, batches: nat)

  const INITIAL := State(None, false, 0, 0, false, false, "watch", {}, None, None, [], 0)

  predicate Current(s: State, subject: string, generation: nat)
  {
    s.subject == Some(subject) && s.generation == generation && s.watching
  }

  function MergePartitions(current: set<string>, incoming: set<string>): set<string>
  {
    var next := current + incoming;
    if next == {} || "all" in next then {"all"} else next
  }

  // ---------------------------------------------------------------- sessions

  /** `new Map(entries)`: a repeated key keeps its place and takes the later value. */
  function Upsert(prints: seq<SessionPrint>, entry: SessionPrint): seq<SessionPrint>
  {
    if prints == [] then [entry]
    else if prints[0].id == entry.id then [entry] + prints[1..]
    else [prints[0]] + Upsert(prints[1..], entry)
  }

  function SessionPrints(d: Digest, sessions: seq<Session>): seq<SessionPrint>
  {
    if sessions == [] then []
    else
      var s := sessions[|sessions| - 1];
      Upsert(SessionPrints(d, sessions[..|sessions| - 1]), SessionPrint(s.id, d.text(s.content)))
  }

  function Ids(prints: seq<SessionPrint>): set<string>
  {
    set p | p in prints :: p.id
  }

  function IdsOf(prints: Option<seq<SessionPrint>>): set<string>
  {
    match prints
    case None => {}
    case Some(ps) => Ids(ps)
  }

  /** Sessions of `next` whose print is new or changed, in order. */
  function Changed(previous: seq<SessionPrint>, next: seq<SessionPrint>): seq<Event>
  {
    if next == [] then []
    else
      (if next[0] in previous then [] else [ConversationUpdated(next[0].id, false)])
      + Changed(previous, next[1..])
  }

  function Gone(previous: seq<SessionPrint>, next: seq<SessionPrint>): seq<Event>
  {
    if previous == [] then []
    else
      (if previous[0].id in Ids(next) then [] else [ConversationUpdated(previous[0].id, true)])
      + Gone(previous[1..], next)
  }

  /** The announcements that take a subscriber from `previous` to `next`. */
  function SessionChanges(previous: Option<seq<SessionPrint>>, next: seq<SessionPrint>): seq<Event>
  {
    match previous
    case None => Changed([], next)
    case Some(ps) => Changed(ps, next) + Gone(ps, next)
  }

  // ---------------------------------------------------------------- publishing

  function Tagged(events: seq<Event>, generation: nat, batch: nat, subject: string, revision: int): (log: seq<Logged>)
    ensures |log| == |events|
    ensures forall i :: 0 <= i < |events| ==> log[i] == Logged(generation, batch, subject, revision, events[i])
  {
    seq(|events|, i requires 0 <= i < |events| => Logged(generation, batch, subject, revision, events[i]))
  }

  /** A batch of events goes out. */
  function Sent(s: State, subject: string, generation: nat, revision: int, events: seq<Event>): State
  {
    s.(log := s.log + Tagged(events, generation, s.batches, subject, revision), batches := s.batches + 1)
  }

  function Failed(s: State, subject: string, generation: nat, revision: int): State
  {
    if s.subject != Some(subject) || s.generation != generation then s
    else Sent(s, subject, generation, revision, [RefreshFailed, EvolutionStale])
  }

  /** What the services return. `breaks`: making or fingerprinting the views throws, which happens
      after the sessions have been compared. */
  datatype Fetch = Throws | Fetched(views: Views, sessions: seq<Session>, breaks: bool)

  /** A call of the watcher from inside a fetch. */
  datatype Notice = Notice(reason: string, partitions: set<string>)
  datatype Interrupt = Undisturbed | Stops | Rewatches(subject: string, starts: bool)

  datatype Round = Round(fetch: Fetch, notices: seq<Notice>, interrupt: Interrupt)

  function Noticed(s: State, notice: Notice): State
  {
    s.(dirty := true, pendingReason := notice.reason, pending := MergePartitions(s.pending, notice.partitions))
  }

  function NoticedAll(s: State, notices: seq<Notice>): State
  {
    if notices == [] then s else Noticed(NoticedAll(s, notices[..|notices| - 1]), notices[|notices| - 1])
  }

  function Stopped(s: State): State
  {
    s.(watching := false, subject := None, inFlight := false, dirty := false, pending := {},
       last := None, lastSessions := None, generation := s.generation + 1, revision := s.revision + 1)
  }

  /** `watch`, up to and including the start of the runtime watcher. */
  function Watched(s: State, subject: string, starts: bool): State
  {
    if s.subject == Some(subject) && s.watching then s
    else
      var anew := Stopped(s).(generation := s.generation + 2, subject := Some(subject));
      if starts then anew.(watching := true) else Failed(anew, subject, anew.generation, anew.revision)
  }

  function Reentered(s: State, round: Round): State
  {
    var s' := NoticedAll(s, round.notices);
    match round.interrupt
    case Undisturbed => s'
    case Stops => Stopped(s')
    case Rewatches(subject, starts) => Watched(s', subject, starts)
  }

  /** Of a state, only what asks for the next refresh. */
  ghost predicate Asks(s: State, s': State)
  {
    s' == s.(dirty := s'.dirty, pendingReason := s'.pendingReason, pending := s'.pending)
  }

  lemma {:induction false} NoticesAsk(s: State, notices: seq<Notice>)
    ensures Asks(s, NoticedAll(s, notices))
  {
    if notices != [] { NoticesAsk(s, notices[..|notices| - 1]); }
  }

  predicate ConversationOnly(partitions: set<string>)
  {
    partitions != {} && partitions <= {"conversation"}
  }

  /** What a caller sees of the branch a refresh takes: whether it asks for anything but the sessions and,
      once a channel view is kept, the channel. */
  ghost predicate AsksForMore(s: State, partitions: set<string>)
  {
    partitions == {} || exists p :: p in partitions && p != "conversation" && (s.last.None? || p != "channel")
  }

  predicate ChannelOnly(s: State, partitions: set<string>)
  {
    ConversationOnly(partitions)
    || (s.last.Some? && partitions != {} && partitions <= {"channel", "conversation"})
  }

  lemma ChannelOnlyIs(s: State, partitions: set<string>)
    ensures ChannelOnly(s, partitions) <==> !AsksForMore(s, partitions)
  {
  }

  function Compared(d: Digest, s: State, sessions: seq<Session>, wanted: bool): State
  {
    if wanted then s.(lastSessions := Some(SessionPrints(d, sessions))) else s
  }

  function Changes(d: Digest, s: State, sessions: seq<Session>, wanted: bool): seq<Event>
  {
    if wanted then SessionChanges(s.lastSessions, SessionPrints(d, sessions)) else []
  }

  /** The refresh of the channel alone; `s` is the state after the fetch. */
  function ChannelRound(d: Digest, s: State, subject: string, generation: nat, revision: int,
                        partitions: set<string>, fetch: Fetch): State
    requires fetch.Fetched?
  {
    var wanted := "conversation" in partitions;
    var changes := Changes(d, s, fetch.sessions, wanted);
    var s1 := Compared(d, s, fetch.sessions, wanted);
    var mark := d.view(fetch.views.channel);
    var changed := s.last.Some? && mark != s.last.value.channel;
    if fetch.breaks then Failed(s1, subject, generation, revision)
    else if !changed && changes == [] then s1.(revision := s1.revision - 1)
    else
      var s2 := if changed then s1.(last := Some(s.last.value.(channel := mark))) else s1;
      Sent(s2, subject, generation, revision,
           changes + (if changed then [ChannelUpdated(fetch.views.channel)] else []))
  }

  function PrintsOf(d: Digest, views: Views): Prints
  {
    Prints(d.view(views.service), d.evolution(views.evolution), d.view(views.todo), d.view(views.channel))
  }

  predicate Differs(previous: Option<Prints>, before: Prints -> int, now: int)
  {
    previous.None? || before(previous.value) != now
  }

  function ServiceEvents(previous: Option<Prints>, prints: Prints, views: Views): seq<Event>
  {
    if Differs(previous, (p: Prints) => p.service, prints.service)
    then [OpsUpdated(views.service, views.evolution), ServiceStatus(views.service)] else []
  }

  function TodoEvents(previous: Option<Prints>, prints: Prints, views: Views): seq<Event>
  {
    if Differs(previous, (p: Prints) => p.todo, prints.todo) then [TodoUpdated(views.todo, views.evolution)] else []
  }

  function EvolutionEvents(previous: Option<Prints>, prints: Prints, views: Views): seq<Event>
  {
    if Differs(previous, (p: Prints) => p.evolution, prints.evolution) then [EvolutionUpdated(views.evolution)] else []
  }

  function ChannelEvents(previous: Option<Prints>, prints: Prints, views: Views): seq<Event>
  {
    if Differs(previous, (p: Prints) => p.channel, prints.channel) then [ChannelUpdated(views.channel)] else []
  }

  /** The events for the partitions whose fingerprint differs, all of them the first time. */
  function PartitionEvents(previous: Option<Prints>, prints: Prints, views: Views, changes: seq<Event>): seq<Event>
  {
    ServiceEvents(previous, prints, views) + TodoEvents(previous, prints, views)
    + EvolutionEvents(previous, prints, views) + changes + ChannelEvents(previous, prints, views)
  }

  function FullRound(d: Digest, s: State, subject: string, generation: nat, revision: int,
                     partitions: set<string>, fetch: Fetch): State
    requires fetch.Fetched?
  {
    var wanted := "all" in partitions || "conversation" in partitions;
    var changes := Changes(d, s, fetch.sessions, wanted);
    var s1 := Compared(d, s, fetch.sessions, wanted);
    if fetch.breaks then Failed(s1, subject, generation, revision)
    else
      var events := PartitionEvents(s.last, PrintsOf(d, fetch.views), fetch.views, changes);
      var s2 := s1.(last := Some(PrintsOf(d, fetch.views)));
      if events == [] then s2.(revision := s2.revision - 1)
      else Sent(s2, subject, generation, revision, events)
  }

  /** What a refresh begun in `s` makes of its fetch, which has left the watcher in `s1`. */
  function Handled(d: Digest, s: State, s1: State, subject: string, generation: nat, partitions: set<string>,
                   fetch: Fetch): State
  {
    var revision := s.revision + 1;
    if fetch.Throws? then Failed(s1, subject, generation, revision)
    else if !Current(s1, subject, generation) then s1
    else if ChannelOnly(s, partitions) then ChannelRound(d, s1, subject, generation, revision, partitions, fetch)
    else FullRound(d, s1, subject, generation, revision, partitions, fetch)
  }

  /** `publishOnce`. */
  function Refreshed(d: Digest, s: State, subject: string, generation: nat, partitions: set<string>,
                     round: Round): State
  {
    Handled(d, s, Reentered(s.(revision := s.revision + 1), round), subject, generation, partitions, round.fetch)
  }

  const QUIET := Round(Throws, [], Undisturbed)

  /** `publish`: one refresh, then one more for all that was asked for meanwhile, and so on. The
      rounds are what the successive fetches do; nothing asks for another refresh after the last. */
  function Published(d: Digest, s: State, subject: string, generation: nat, reason: string, partitions: set<string>,
                     rounds: seq<Round>): State
    decreases |rounds|
  {
    if !Current(s, subject, generation) then s
    else if s.inFlight then Noticed(s, Notice(reason, partitions))
    else
      var round := if rounds == [] then QUIET else rounds[0];
      var s1 := Refreshed(d, s.(inFlight := true), subject, generation, partitions, round).(inFlight := false);
      if s1.dirty && Current(s1, subject, generation) && rounds != [] then
        Published(d, s1.(dirty := false, pending := {}), subject, generation, s1.pendingReason, s1.pending, rounds[1..])
      else s1
  }

  // ---------------------------------------------------------------- runs

  /** A refresh asked for by the runtime watcher. */
  datatype Ask = Ask(reason: string, partitions: set<string>, rounds: seq<Round>)

  function Asked(d: Digest, s: State, subject: string, generation: nat, asks: seq<Ask>): State
  {
    if asks == [] then s
    else
      var before := Asked(d, s, subject, generation, asks[..|asks| - 1]);
      var ask := asks[|asks| - 1];
      Published(d, before, subject, generation, ask.reason, ask.partitions, ask.rounds)
  }

  /** `watch` with a runtime watcher that asks for refreshes before its `start` returns or throws. */
  function WatchedEarly(d: Digest, s: State, subject: string, starts: bool, early: seq<Ask>): State
  {
    if s.subject == Some(subject) && s.watching then s
    else
      var begun := Watched(s, subject, true);
      var asked := Asked(d, begun, subject, begun.generation, early);
      if starts then asked
      else Failed(asked.(watching := false), subject, begun.generation, asked.revision)
  }

  datatype Call =
    | Watch(subject: string, starts: bool, early: seq<Ask>)
    | Stop
    | Notify(subject: string, generation: nat, reason: string, partitions: set<string>, rounds: seq<Round>)

  function Called(d: Digest, s: State, call: Call): State
  {
    match call
    case Watch(subject, starts, early) => WatchedEarly(d, s, subject, starts, early)
    case Stop => Stopped(s)
    case Notify(subject, generation, reason, partitions, rounds) =>
      Published(d, s, subject, generation, reason, partitions, rounds)
  }

  function Run(d: Digest, calls: seq<Call>): State
  {
    if calls == [] then INITIAL else Called(d, Run(d, calls[..|calls| - 1]), calls[|calls| - 1])
  }

  // ---------------------------------------------------------------- where the last events come from

  /** The views that the last events of a watch generation were made from: for each partition those of
      its own event, and the evolution view of the last event with counts (`attached`) and of the last
      event at all that shows one (`latest`). */
  datatype Origins = Origins(
    service: Option<View>, evolution: Option<Evolution>, todo: Option<View>, channel: Option<View>,
    attached: Option<Evolution>, latest: Option<Evolution>, sessions: set<string>)

  const NOTHING := Origins(None, None, None, None, None, None, {})

  function Traced(b: Origins, event: Event): Origins
  {
    match event
    case OpsUpdated(_, evolution) => b.(attached := Some(evolution), latest := Some(evolution))
    case ServiceStatus(service) => b.(service := Some(service))
    case TodoUpdated(todo, evolution) => b.(todo := Some(todo), attached := Some(evolution), latest := Some(evolution))
    case EvolutionUpdated(evolution) => b.(evolution := Some(evolution), latest := Some(evolution))
    case ChannelUpdated(channel) => b.(channel := Some(channel))
    case ConversationUpdated(session, removed) =>
      b.(sessions := if removed then b.sessions - {session} else b.sessions + {session})
    case _ => b
  }

  function TracedAll(b: Origins, events: seq<Event>): Origins
  {
    if events == [] then b else Traced(TracedAll(b, events[..|events| - 1]), events[|events| - 1])
  }

  function OriginsOf(log: seq<Logged>, generation: nat): Origins
  {
    if log == [] then NOTHING
    else
      var before := OriginsOf(log[..|log| - 1], generation);
      var entry := log[|log| - 1];
      if entry.generation == generation then Traced(before, entry.event) else before
  }

  // ---------------------------------------------------------------- what a batch tells

  lemma {:induction false} OriginsOfBatch(log: seq<Logged>, batch: seq<Logged>, generation: nat)
    requires forall e :: e in batch ==> e.generation == generation
    ensures OriginsOf(log + batch, generation) == TracedAll(OriginsOf(log, generation), Payloads(batch))
  {
    if batch == [] {
      assert log + batch == log;
    } else {
      var n := |batch| - 1;
      assert (log + batch)[..|log| + n] == log + batch[..n];
      assert Payloads(batch)[..n] == Payloads(batch[..n]);
      OriginsOfBatch(log, batch[..n], generation);
    }
  }

  function Payloads(batch: seq<Logged>): (events: seq<Event>)
    ensures |events| == |batch|
  {
    seq(|batch|, i requires 0 <= i < |batch| => batch[i].event)
  }

  lemma TaggedPayloads(events: seq<Event>, generation: nat, batch: nat, subject: string, revision: int)
    ensures Payloads(Tagged(events, generation, batch, subject, revision)) == events
  {
  }

  lemma {:induction false} OriginsOfLater(log: seq<Logged>, generation: nat)
    requires forall e :: e in log ==> e.generation < generation
    ensures OriginsOf(log, generation) == NOTHING
  {
    if log != [] { OriginsOfLater(log[..|log| - 1], generation); }
  }

  lemma {:induction false} TracedAppend(b: Origins, first: seq<Event>, second: seq<Event>)
    ensures TracedAll(b, first + second) == TracedAll(TracedAll(b, first), second)
  {
    if second == [] {
      assert first + second == first;
    } else {
      var n := |second| - 1;
      assert (first + second)[..|first| + n] == first + second[..n];
      TracedAppend(b, first, second[..n]);
    }
  }

  // ---------------------------------------------------------------- what session changes tell

  /** Only the sessions of the board change. */
  ghost predicate OnlySessions(before: Origins, after: Origins)
  {
    after == before.(sessions := after.sessions)
  }

  lemma {:induction false} ChangedTraced(b: Origins, previous: seq<SessionPrint>, next: seq<SessionPrint>)
    ensures var after := TracedAll(b, Changed(previous, next));
            && OnlySessions(b, after)
            && after.sessions == b.sessions + set p | p in next && p !in previous :: p.id
    decreases |next|
  {
    if next != [] {
      var first := if next[0] in previous then [] else [ConversationUpdated(next[0].id, false)];
      TracedAppend(b, first, Changed(previous, next[1..]));
      ChangedTraced(TracedAll(b, first), previous, next[1..]);
      assert first != [] ==> first[..0] == [];
      assert next == [next[0]] + next[1..];
    }
  }

  lemma {:induction false} GoneTraced(b: Origins, previous: seq<SessionPrint>, next: seq<SessionPrint>)
    ensures var after := TracedAll(b, Gone(previous, next));
            && OnlySessions(b, after)
            && after.sessions == b.sessions - (Ids(previous) - Ids(next))
    decreases |previous|
  {
    if previous != [] {
      var first := if previous[0].id in Ids(next) then [] else [ConversationUpdated(previous[0].id, true)];
      TracedAppend(b, first, Gone(previous[1..], next));
      GoneTraced(TracedAll(b, first), previous[1..], next);
      assert first != [] ==> first[..0] == [];
      assert previous == [previous[0]] + previous[1..];
    }
  }

  /** A subscriber that knew the previous sessions knows the next ones. */
  lemma SessionChangesTraced(b: Origins, previous: Option<seq<SessionPrint>>, next: seq<SessionPrint>)
    requires b.sessions == IdsOf(previous)
    ensures var after := TracedAll(b, SessionChanges(previous, next));
            OnlySessions(b, after) && after.sessions == Ids(next)
  {
    var known := match previous case None => [] case Some(ps) => ps;
    ChangedTraced(b, known, next);
    if previous.Some? {
      var middle := TracedAll(b, Changed(known, next));
      TracedAppend(b, Changed(known, next), Gone(known, next));
      GoneTraced(middle, known, next);
    }
  }

  // ---------------------------------------------------------------- what partition events tell

  /** The last event of each partition was made from a view with the fingerprint kept for it. */
  ghost predicate Matches(d: Digest, b: Origins, last: Option<Prints>)
  {
    match last
    case None =>
      b.service.None? && b.evolution.None? && b.todo.None? && b.channel.None? && b.attached.None? && b.latest.None?
    case Some(p) =>
      && b.service.Some? && d.view(b.service.value) == p.service
      && b.evolution.Some? && d.evolution(b.evolution.value) == p.evolution
      && b.todo.Some? && d.view(b.todo.value) == p.todo
      && b.channel.Some? && d.view(b.channel.value) == p.channel
      && b.attached.Some?
      && b.latest.Some? && d.evolution(b.latest.value) == p.evolution
  }

  /** The event is made from another view than the last one of its partition. */
  ghost predicate News(d: Digest, b: Origins, event: Event)
  {
    match event
    case ServiceStatus(v) => b.service.Some? ==> d.view(b.service.value) != d.view(v)
    case TodoUpdated(v, _) => b.todo.Some? ==> d.view(b.todo.value) != d.view(v)
    case EvolutionUpdated(v) => b.evolution.Some? ==> d.evolution(b.evolution.value) != d.evolution(v)
    case ChannelUpdated(v) => b.channel.Some? ==> d.view(b.channel.value) != d.view(v)
    case _ => true
  }

  ghost predicate NewsAll(d: Digest, b: Origins, events: seq<Event>)
  {
    forall i :: 0 <= i < |events| ==> News(d, TracedAll(b, events[..i]), events[i])
  }

  lemma NewsAt(d: Digest, b: Origins, first: seq<Event>, second: seq<Event>, i: nat)
    requires NewsAll(d, b, first) && NewsAll(d, TracedAll(b, first), second) && i < |first| + |second|
    ensures News(d, TracedAll(b, (first + second)[..i]), (first + second)[i])
  {
    hide News, TracedAll;
    if i < |first| {
      assert (first + second)[..i] == first[..i];
    } else {
      var k := i - |first|;
      assert (first + second)[..i] == first + second[..k];
      TracedAppend(b, first, second[..k]);
    }
  }

  lemma NewsAppend(d: Digest, b: Origins, first: seq<Event>, second: seq<Event>)
    requires NewsAll(d, b, first) && NewsAll(d, TracedAll(b, first), second)
    ensures NewsAll(d, b, first + second)
  {
    forall i | 0 <= i < |first + second| ensures News(d, TracedAll(b, (first + second)[..i]), (first + second)[i]) {
      NewsAt(d, b, first, second, i);
    }
  }

  /** Session changes are news, and leave the partitions of the board alone. */
  ghost predicate AboutSessions(events: seq<Event>)
  {
    forall e :: e in events ==> e.ConversationUpdated?
  }

  lemma {:induction false} SessionsAlone(d: Digest, b: Origins, events: seq<Event>)
    requires AboutSessions(events)
    ensures OnlySessions(b, TracedAll(b, events)) && NewsAll(d, b, events)
  {
    if events != [] { SessionsAlone(d, b, events[..|events| - 1]); }
  }

  lemma {:induction false} ChangesAreAboutSessions(previous: seq<SessionPrint>, next: seq<SessionPrint>)
    ensures AboutSessions(Changed(previous, next)) && AboutSessions(Gone(previous, next))
    decreases |previous| + |next|
  {
    if next != [] { ChangesAreAboutSessions(previous, next[1..]); }
    if previous != [] { ChangesAreAboutSessions(previous[1..], next); }
  }

  // Each part of a batch is traced by itself.

  lemma OneTraced(d: Digest, b: Origins, event: Event)
    requires News(d, b, event)
    ensures TracedAll(b, [event]) == Traced(b, event) && NewsAll(d, b, [event])
  {
    assert [event][..0] == [];
  }

  lemma ServiceTraced(d: Digest, b: Origins, previous: Option<Prints>, views: Views)
    requires Matches(d, b, previous)
    ensures var prints := PrintsOf(d, views);
            var events := ServiceEvents(previous, prints, views);
            && NewsAll(d, b, events)
            && TracedAll(b, events) ==
               if previous.None? || previous.value.service != prints.service
               then b.(service := Some(views.service), attached := Some(views.evolution),
                       latest := Some(views.evolution))
               else b
  {
    var first, second := OpsUpdated(views.service, views.evolution), ServiceStatus(views.service);
    OneTraced(d, b, first);
    if previous.None? || previous.value.service != d.view(views.service) {
      OneTraced(d, Traced(b, first), second);
      TracedNews(d, b, [first], [second]);
      assert ServiceEvents(previous, PrintsOf(d, views), views) == [first] + [second];
    }
  }

  lemma TodoTraced(d: Digest, b: Origins, previous: Option<Prints>, views: Views)
    requires previous.None? ==> b.todo.None?
    requires previous.Some? ==> b.todo.Some? && d.view(b.todo.value) == previous.value.todo
    ensures var prints := PrintsOf(d, views);
            var events := TodoEvents(previous, prints, views);
            && NewsAll(d, b, events)
            && TracedAll(b, events) ==
               if previous.None? || previous.value.todo != prints.todo
               then b.(todo := Some(views.todo), attached := Some(views.evolution), latest := Some(views.evolution))
               else b
  {
    if previous.None? || previous.value.todo != d.view(views.todo) {
      OneTraced(d, b, TodoUpdated(views.todo, views.evolution));
    }
  }

  lemma EvolutionTraced(d: Digest, b: Origins, previous: Option<Prints>, views: Views)
    requires previous.None? ==> b.evolution.None?
    requires previous.Some? ==> b.evolution.Some? && d.evolution(b.evolution.value) == previous.value.evolution
    ensures var prints := PrintsOf(d, views);
            var events := EvolutionEvents(previous, prints, views);
            && NewsAll(d, b, events)
            && TracedAll(b, events) ==
               if previous.None? || previous.value.evolution != prints.evolution
               then b.(evolution := Some(views.evolution), latest := Some(views.evolution))
               else b
  {
    if previous.None? || previous.value.evolution != d.evolution(views.evolution) {
      OneTraced(d, b, EvolutionUpdated(views.evolution));
    }
  }

  lemma ChannelTraced(d: Digest, b: Origins, previous: Option<Prints>, views: Views)
    requires previous.None? ==> b.channel.None?
    requires previous.Some? ==> b.channel.Some? && d.view(b.channel.value) == previous.value.channel
    ensures var prints := PrintsOf(d, views);
            var events := ChannelEvents(previous, prints, views);
            && NewsAll(d, b, events)
            && TracedAll(b, events) ==
               if previous.None? || previous.value.channel != prints.channel
               then b.(channel := Some(views.channel))
               else b
  {
    if previous.None? || previous.value.channel != d.view(views.channel) {
      OneTraced(d, b, ChannelUpdated(views.channel));
    }
  }

  /** Whether a batch has an event that carries the counts. */
  predicate ShowsCounts(previous: Option<Prints>, prints: Prints)
  {
    previous.None? || previous.value.service != prints.service || previous.value.todo != prints.todo
  }

  lemma PartitionsTraced(d: Digest, b: Origins, previous: Option<Prints>, views: Views, changes: seq<Event>)
    requires Matches(d, b, previous) && AboutSessions(changes)
    ensures var prints := PrintsOf(d, views);
            var events := PartitionEvents(previous, prints, views, changes);
            var after := TracedAll(b, events);
            && Matches(d, after, Some(prints)) && NewsAll(d, b, events)
            && after.sessions == TracedAll(b, changes).sessions
            && after.attached == (if ShowsCounts(previous, prints) then Some(views.evolution) else b.attached)
  {
    var prints := PrintsOf(d, views);
    var e1, e2 := ServiceEvents(previous, prints, views), TodoEvents(previous, prints, views);
    var e3, e4 := EvolutionEvents(previous, prints, views), ChannelEvents(previous, prints, views);
    hide NewsAll, TracedAll, ServiceEvents, TodoEvents, EvolutionEvents, ChannelEvents, AboutSessions, News;
    ServiceTraced(d, b, previous, views);
    var b1 := TracedAll(b, e1);
    TodoTraced(d, b1, previous, views);
    TracedNews(d, b, e1, e2);
    var b2 := TracedAll(b1, e2);
    EvolutionTraced(d, b2, previous, views);
    TracedNews(d, b, e1 + e2, e3);
    var b3 := TracedAll(b2, e3);
    SessionsAlone(d, b3, changes);
    SameSessions(b, b3, changes);
    TracedNews(d, b, e1 + e2 + e3, changes);
    ChannelTraced(d, TracedAll(b3, changes), previous, views);
    TracedNews(d, b, e1 + e2 + e3 + changes, e4);
  }

  lemma TracedNews(d: Digest, b: Origins, first: seq<Event>, second: seq<Event>)
    requires NewsAll(d, b, first) && NewsAll(d, TracedAll(b, first), second)
    ensures TracedAll(b, first + second) == TracedAll(TracedAll(b, first), second) && NewsAll(d, b, first + second)
  {
    TracedAppend(b, first, second);
    NewsAppend(d, b, first, second);
  }

  lemma {:induction false} SameSessions(b: Origins, b': Origins, events: seq<Event>)
    requires b.sessions == b'.sessions
    ensures TracedAll(b, events).sessions == TracedAll(b', events).sessions
  {
    if events != [] { SameSessions(b, b', events[..|events| - 1]); }
  }

  /** What the events of a full refresh say: the partitions that differ, in views of one fetch, and the
      session changes; nothing else. */
  lemma EventsShowTheFetch(previous: Option<Prints>, prints: Prints, views: Views, changes: seq<Event>, e: Event)
    ensures var p := previous;
            e in PartitionEvents(previous, prints, views, changes) <==>
            || e in changes
            || ((p.None? || p.value.service != prints.service)
                && (e == OpsUpdated(views.service, views.evolution) || e == ServiceStatus(views.service)))
            || ((p.None? || p.value.todo != prints.todo) && e == TodoUpdated(views.todo, views.evolution))
            || ((p.None? || p.value.evolution != prints.evolution) && e == EvolutionUpdated(views.evolution))
            || ((p.None? || p.value.channel != prints.channel) && e == ChannelUpdated(views.channel))
  {
    InFive(ServiceEvents(previous, prints, views), TodoEvents(previous, prints, views),
           EvolutionEvents(previous, prints, views), changes, ChannelEvents(previous, prints, views), e);
  }

  lemma InFive(a: seq<Event>, b: seq<Event>, c: seq<Event>, d: seq<Event>, x: seq<Event>, e: Event)
    ensures e in a + b + c + d + x <==> e in a || e in b || e in c || e in d || e in x
  {
  }
}
