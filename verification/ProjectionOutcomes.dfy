/**
 What one refresh sends, said over the partitions that are asked for, the fingerprints that are kept and
 what was fetched.
 */
module ProjectionOutcomes {

  import opened Prelude
  import opened Projection
  import Order = ProjectionOrder

  /** The events that have gone out from `s` to `s'`. */
  function EventsSince(s: State, s': State): seq<Event>
    requires |s.log| <= |s'.log|
  {
    Payloads(s'.log[|s.log|..])
  }

  /** `events` have gone out, in one batch with the next revision if there are any, and otherwise the
      revision is what it was. */
  ghost predicate Sends(s: State, s': State, subject: string, events: seq<Event>)
  {
    && s.log <= s'.log && EventsSince(s, s') == events
    && (forall i :: |s.log| <= i < |s'.log| ==>
          && s'.log[i].subject == subject && s'.log[i].generation == s.generation
          && s'.log[i].batch == s.batches && s'.log[i].revision == s.revision + 1)
    && s'.revision == s.revision + (if events == [] then 0 else 1)
  }

  lemma SentSends(s: State, s1: State, s': State, subject: string, events: seq<Event>)
    requires s1.log == s.log && s1.batches == s.batches
    requires if events == [] then s'.log == s.log && s'.revision == s.revision
             else s'.log == s1.log + Tagged(events, s.generation, s.batches, subject, s.revision + 1)
                  && s'.revision == s.revision + 1
    ensures Sends(s, s', subject, events)
  {
    if events != [] {
      TaggedPayloads(events, s.generation, s.batches, subject, s.revision + 1);
      assert s'.log[|s.log|..] == Tagged(events, s.generation, s.batches, subject, s.revision + 1);
    }
  }

  /** The fetch succeeds and comes back to its own watch. */
  ghost predicate ComesBack(s: State, subject: string, round: Round)
  {
    && round.fetch.Fetched? && !round.fetch.breaks && Current(s, subject, s.generation)
    && Current(Reentered(s.(revision := s.revision + 1), round), subject, s.generation)
  }

  /** What the sessions that were fetched come to. */
  function SessionEvents(d: Digest, s: State, sessions: seq<Session>): seq<Event>
  {
    SessionChanges(s.lastSessions, SessionPrints(d, sessions))
  }

  /** A refresh for nothing but sessions and channel sends the session changes if and only if the sessions
      are asked for, then the channel view if and only if one is kept and it differs, and nothing else. */
  lemma ChannelRefreshSends(d: Digest, s: State, subject: string, partitions: set<string>, round: Round)
    requires ComesBack(s, subject, round) && partitions != {}
    requires forall p :: p in partitions ==> p == "conversation" || (p == "channel" && s.last.Some?)
    ensures var after := Refreshed(d, s, subject, s.generation, partitions, round);
            var channel := round.fetch.views.channel;
            Sends(s, after, subject,
                  (if "conversation" in partitions then SessionEvents(d, s, round.fetch.sessions) else [])
                  + (if s.last.Some? && s.last.value.channel != d.view(channel) then [ChannelUpdated(channel)] else []))
  {
    hide SessionPrints, SessionChanges, Reentered;
    var s0 := s.(revision := s.revision + 1);
    var s1 := Reentered(s0, round);
    Order.ReenteredGrows(s0, round);
    ChannelOnlyIs(s, partitions);
    AsksAside(s0, s1);
    hide ChannelOnly, Sends, Asks;
    var channel := round.fetch.views.channel;
    var events := (if "conversation" in partitions then SessionEvents(d, s, round.fetch.sessions) else [])
      + (if s.last.Some? && s.last.value.channel != d.view(channel) then [ChannelUpdated(channel)] else []);
    SentSends(s, s1, Refreshed(d, s, subject, s.generation, partitions, round), subject, events);
  }

  lemma AsksAside(s: State, s': State)
    requires Asks(s, s')
    ensures s'.log == s.log && s'.batches == s.batches && s'.last == s.last && s'.lastSessions == s.lastSessions
    ensures s'.revision == s.revision && s'.generation == s.generation && s'.subject == s.subject
  {
  }

  /** Any other refresh sends exactly the partitions that differ from what is kept, all of them the first
      time, and the session changes if and only if all partitions or the sessions are asked for. */
  lemma FullRefreshSends(d: Digest, s: State, subject: string, partitions: set<string>, round: Round, e: Event)
    requires ComesBack(s, subject, round)
    requires partitions == {} || exists p :: p in partitions && p != "conversation" && (s.last.None? || p != "channel")
    ensures var after := Refreshed(d, s, subject, s.generation, partitions, round);
            var v, kept := round.fetch.views, s.last;
            && s.log <= after.log && Sends(s, after, subject, EventsSince(s, after))
            && (e in EventsSince(s, after) <==>
                || (("all" in partitions || "conversation" in partitions)
                    && e in SessionEvents(d, s, round.fetch.sessions))
                || ((kept.None? || kept.value.service != d.view(v.service))
                    && (e == OpsUpdated(v.service, v.evolution) || e == ServiceStatus(v.service)))
                || ((kept.None? || kept.value.todo != d.view(v.todo)) && e == TodoUpdated(v.todo, v.evolution))
                || ((kept.None? || kept.value.evolution != d.evolution(v.evolution))
                    && e == EvolutionUpdated(v.evolution))
                || ((kept.None? || kept.value.channel != d.view(v.channel)) && e == ChannelUpdated(v.channel)))
  {
    hide SessionPrints, SessionChanges, Reentered;
    var s0 := s.(revision := s.revision + 1);
    var s1 := Reentered(s0, round);
    Order.ReenteredGrows(s0, round);
    assert AsksForMore(s, partitions);
    ChannelOnlyIs(s, partitions);
    AsksAside(s0, s1);
    hide ChannelOnly, Sends, Asks, AsksForMore, PartitionEvents;
    var wanted := "all" in partitions || "conversation" in partitions;
    var changes := if wanted then SessionEvents(d, s, round.fetch.sessions) else [];
    var events := PartitionEvents(s.last, PrintsOf(d, round.fetch.views), round.fetch.views, changes);
    EventsShowTheFetch(s.last, PrintsOf(d, round.fetch.views), round.fetch.views, changes, e);
    var after := Refreshed(d, s, subject, s.generation, partitions, round);
    SentSends(s, s1, after, subject, events);
    SendsMeans(s, after, subject, events);
  }

  lemma SendsMeans(s: State, s': State, subject: string, events: seq<Event>)
    requires Sends(s, s', subject, events)
    ensures s.log <= s'.log && EventsSince(s, s') == events
  {
  }

  /** A refresh that fails while its watch lasts sends the two failure events and keeps the fingerprints
      of the views; if its watch is over it sends nothing. */
  lemma FailedRefreshSends(d: Digest, s: State, subject: string, partitions: set<string>, round: Round)
    requires Current(s, subject, s.generation) && (round.fetch.Throws? || round.fetch.breaks)
    ensures var s1 := Reentered(s.(revision := s.revision + 1), round);
            var after := Refreshed(d, s, subject, s.generation, partitions, round);
            if s1.generation == s.generation
            then Sends(s, after, subject, [RefreshFailed, EvolutionStale]) && after.last == s.last
            else after == s1
  {
    hide SessionPrints, SessionChanges, Reentered, ChannelOnly;
    var s0 := s.(revision := s.revision + 1);
    var s1 := Reentered(s0, round);
    Order.ReenteredGrows(s0, round);
    if s1.generation == s.generation {
      AsksAside(s0, s1);
      AsksCurrent(s0, s1, subject);
      hide Asks, Sends;
      SentSends(s, s1, Refreshed(d, s, subject, s.generation, partitions, round), subject,
                [RefreshFailed, EvolutionStale]);
    }
  }

  lemma AsksCurrent(s: State, s': State, subject: string)
    requires Asks(s, s') && Current(s, subject, s.generation)
    ensures Current(s', subject, s.generation)
  {
  }

  // ---------------------------------------------------------------- watching

  /** A subject that is watched stays watched as it is. Any other watch is a new one: nothing is kept of
      the views and sessions, nothing is under way, and generation and revision have gone up. If its
      runtime watcher throws it is no watch, but its failure is sent. */
  lemma WatchOutcome(s: State, subject: string, starts: bool)
    ensures var s' := Watched(s, subject, starts);
            if s.watching && s.subject == Some(subject) then s' == s
            else && s'.subject == Some(subject) && s'.watching == starts && s'.generation == s.generation + 2
                 && s'.revision == s.revision + 1 && s'.last.None? && s'.lastSessions.None?
                 && !s'.inFlight && !s'.dirty && s'.pending == {} && s.log <= s'.log
                 && EventsSince(s, s') == (if starts then [] else [RefreshFailed, EvolutionStale])
  {
    TaggedPayloads([RefreshFailed, EvolutionStale], s.generation + 2, s.batches, subject, s.revision + 1);
    var s' := Watched(s, subject, starts);
    if s'.log != s.log {
      assert s'.log[|s.log|..]
          == Tagged([RefreshFailed, EvolutionStale], s.generation + 2, s.batches, subject, s.revision + 1);
    }
  }

  /** A stop ends the watch and sends nothing. */
  lemma StopOutcome(s: State)
    ensures var s' := Stopped(s);
            && s'.subject.None? && !s'.watching && s'.generation == s.generation + 1 && s'.revision == s.revision + 1
            && s'.last.None? && s'.lastSessions.None? && !s'.inFlight && !s'.dirty && s'.pending == {}
                && s'.log == s.log
  {
  }

  // ---------------------------------------------------------------- sessions

  lemma {:induction false} ChangedIs(previous: seq<SessionPrint>, next: seq<SessionPrint>, e: Event)
    ensures e in Changed(previous, next) <==>
            e.ConversationUpdated? && !e.removed && exists p :: p in next && p !in previous && p.id == e.session
    decreases |next|
  {
    if next != [] {
      ChangedIs(previous, next[1..], e);
      assert next == [next[0]] + next[1..];
    }
  }

  lemma {:induction false} GoneIs(previous: seq<SessionPrint>, next: seq<SessionPrint>, e: Event)
    ensures e in Gone(previous, next) <==>
            e.ConversationUpdated? && e.removed && exists p :: p in previous && p.id == e.session && p.id !in Ids(next)
    decreases |previous|
  {
    if previous != [] {
      GoneIs(previous[1..], next, e);
      assert previous == [previous[0]] + previous[1..];
    }
  }

  /** A session is announced if and only if its fingerprint is new or has changed, and removed if and only
      if it was there and no longer is. */
  lemma SessionIsAnnounced(previous: Option<seq<SessionPrint>>, next: seq<SessionPrint>, id: string)
    ensures ConversationUpdated(id, false) in SessionChanges(previous, next) <==>
            exists p :: p in next && p.id == id && (previous.None? || p !in previous.value)
    ensures ConversationUpdated(id, true) in SessionChanges(previous, next) <==>
            previous.Some? && id in Ids(previous.value) && id !in Ids(next)
  {
    var known := if previous.None? then [] else previous.value;
    ChangedIs(known, next, ConversationUpdated(id, false));
    ChangedIs(known, next, ConversationUpdated(id, true));
    GoneIs(known, next, ConversationUpdated(id, false));
    GoneIs(known, next, ConversationUpdated(id, true));
  }

  lemma {:induction false} UpsertIs(prints: seq<SessionPrint>, entry: SessionPrint)
    requires forall i, j :: 0 <= i < j < |prints| ==> prints[i].id != prints[j].id
    ensures var r := Upsert(prints, entry);
            && (forall i, j :: 0 <= i < j < |r| ==> r[i].id != r[j].id)
            && (forall q :: q in r <==> q == entry || (q in prints && q.id != entry.id))
  {
    if prints != [] && prints[0].id != entry.id {
      UpsertIs(prints[1..], entry);
      assert prints == [prints[0]] + prints[1..];
      assert prints[0] !in prints[1..];
    }
  }

  /** The text of the last session with this id. */
  function LastContent(sessions: seq<Session>, id: string): Option<string>
  {
    if sessions == [] then None
    else if sessions[|sessions| - 1].id == id then Some(sessions[|sessions| - 1].content)
    else LastContent(sessions[..|sessions| - 1], id)
  }

  /** The fingerprints that are kept are those of the sessions, each id once, with its last text. */
  lemma {:induction false} PrintsAreSessions(d: Digest, sessions: seq<Session>)
    ensures var r := SessionPrints(d, sessions);
            && (forall i, j :: 0 <= i < j < |r| ==> r[i].id != r[j].id)
            && (forall p :: p in r <==>
                  LastContent(sessions, p.id).Some? && p.mark == d.text(LastContent(sessions, p.id).value))
  {
    if sessions != [] {
      var n := |sessions| - 1;
      PrintsAreSessions(d, sessions[..n]);
      var entry := SessionPrint(sessions[n].id, d.text(sessions[n].content));
      UpsertIs(SessionPrints(d, sessions[..n]), entry);
    }
  }
}
