/**
 The code of the projection watcher. Each method is proved to do to the fields what the functions of
 `Projection` say. `Reenter` stands for the services: what they do to the watcher before they return.
 */
module ProjectionWatcher {

  import opened Prelude
  import opened Projection

  class ProjectionWatcher {
    const digest: Digest
    var activeSubject: Option<string>
    var watching: bool
    var revision: int
    var watchGeneration: nat
    var refreshInFlight: bool
    var refreshDirty: bool
    var pendingReason: string
    var pendingPartitions: set<string>
    var lastFingerprints: Option<Prints>
    var lastConversationFingerprints: Option<seq<SessionPrint>>
    /** The event bus, and the number of batches it has carried. */
    var bus: seq<Logged>
    var batches: nat

    constructor (digest: Digest)
      ensures Now() == INITIAL && this.digest == digest
    {
      this.digest := digest;
      activeSubject, watching, revision, watchGeneration := None, false, 0, 0;
      refreshInFlight, refreshDirty, pendingReason, pendingPartitions := false, false, "watch", {};
      lastFingerprints, lastConversationFingerprints, bus, batches := None, None, [], 0;
    }

    function Now(): State
      reads this
    {
      State(activeSubject, watching, revision, watchGeneration, refreshInFlight, refreshDirty, pendingReason,
            pendingPartitions, lastFingerprints, lastConversationFingerprints, bus, batches)
    }

    // -------------------------------------------------------------- the bus

    method Emit(subject: string, generation: nat, revision: int, events: seq<Event>)
      modifies this`bus
      ensures bus == old(bus) + Tagged(events, generation, batches, subject, revision)
    {
      var i := 0;
      while i < |events|
        invariant 0 <= i <= |events|
        invariant bus == old(bus) + Tagged(events[..i], generation, batches, subject, revision)
      {
        bus := bus + [Logged(generation, batches, subject, revision, events[i])];
        i := i + 1;
      }
      assert events[..i] == events;
    }

    method PublishFailure(subject: string, generation: nat, revision: int)
      modifies this`bus, this`batches
      ensures Now() == Failed(old(Now()), subject, generation, revision)
      ensures old(bus) <= bus && (watchGeneration != generation ==> bus == old(bus))
    {
      if activeSubject != Some(subject) || watchGeneration != generation { return; }
      Emit(subject, generation, revision, [RefreshFailed, EvolutionStale]);
      batches := batches + 1;
    }

    // -------------------------------------------------------------- watching

    method Stop() returns (stopped: bool)
      modifies this
      ensures Now() == Stopped(old(Now())) && stopped == old(watching)
    {
      stopped := watching;
      watching, activeSubject := false, None;
      refreshInFlight, refreshDirty, pendingPartitions := false, false, {};
      lastFingerprints, lastConversationFingerprints := None, None;
      watchGeneration, revision := watchGeneration + 1, revision + 1;
    }

    method Begin(subject: string, starts: bool)
      modifies this
      ensures Now() == Watched(old(Now()), subject, starts)
    {
      if activeSubject == Some(subject) && watching { return; }
      var _ := Stop();
      watchGeneration := watchGeneration + 1;
      activeSubject := Some(subject);
      if starts {
        watching := true;
      } else {
        watching := false;
        PublishFailure(subject, watchGeneration, revision);
      }
    }

    method Watch(subject: string, starts: bool, early: seq<Ask>)
      modifies this
      ensures Now() == WatchedEarly(digest, old(Now()), subject, starts, early)
    {
      if activeSubject == Some(subject) && watching { return; }
      Begin(subject, true);
      var generation := watchGeneration;
      ghost var begun := Now();
      var i := 0;
      while i < |early|
        invariant 0 <= i <= |early|
        invariant Now() == Asked(digest, begun, subject, generation, early[..i])
      {
        Publish(subject, early[i].reason, generation, early[i].partitions, early[i].rounds);
        assert early[..i + 1][..i] == early[..i];
        i := i + 1;
      }
      assert early[..i] == early;
      if !starts {
        watching := false;
        PublishFailure(subject, generation, revision);
      }
    }

    // -------------------------------------------------------------- refreshing

    method Defer(reason: string, partitions: set<string>)
      modifies this`refreshDirty, this`pendingReason, this`pendingPartitions
      ensures Now() == Noticed(old(Now()), Notice(reason, partitions))
    {
      refreshDirty, pendingReason := true, reason;
      pendingPartitions := MergePartitions(pendingPartitions, partitions);
    }

    method Reenter(round: Round)
      modifies this
      ensures Now() == Reentered(old(Now()), round)
    {
      var i := 0;
      while i < |round.notices|
        invariant 0 <= i <= |round.notices|
        invariant Now() == NoticedAll(old(Now()), round.notices[..i])
      {
        Defer(round.notices[i].reason, round.notices[i].partitions);
        assert round.notices[..i + 1][..i] == round.notices[..i];
        i := i + 1;
      }
      assert round.notices[..i] == round.notices;
      match round.interrupt
      case Undisturbed =>
      case Stops => var _ := Stop();
      case Rewatches(subject, starts) => Begin(subject, starts);
    }

    method ChangedConversationSessions(sessions: seq<Session>) returns (changes: seq<Event>)
      modifies this`lastConversationFingerprints
      ensures Now() == Compared(digest, old(Now()), sessions, true)
      ensures changes == Changes(digest, old(Now()), sessions, true)
    {
      var next := [];
      var i := 0;
      while i < |sessions|
        invariant 0 <= i <= |sessions|
        invariant next == SessionPrints(digest, sessions[..i])
      {
        next := Upsert(next, SessionPrint(sessions[i].id, digest.text(sessions[i].content)));
        assert sessions[..i + 1][..i] == sessions[..i];
        i := i + 1;
      }
      assert sessions[..i] == sessions;
      changes := SessionChanges(lastConversationFingerprints, next);
      lastConversationFingerprints := Some(next);
    }

    method PublishChannel(subject: string, generation: nat, revision: int, partitions: set<string>, fetch: Fetch)
      requires fetch.Fetched?
      modifies this
      ensures Now() == ChannelRound(digest, old(Now()), subject, generation, revision, partitions, fetch)
    {
      var previous := lastFingerprints;
      var changes := [];
      if "conversation" in partitions { changes := ChangedConversationSessions(fetch.sessions); }
      if fetch.breaks {
        PublishFailure(subject, generation, revision);
        return;
      }
      var mark := digest.view(fetch.views.channel);
      var changed := previous.Some? && mark != previous.value.channel;
      if !changed && changes == [] {
        this.revision := this.revision - 1;
        return;
      }
      if changed { lastFingerprints := Some(previous.value.(channel := mark)); }
      Emit(subject, generation, revision, changes + (if changed then [ChannelUpdated(fetch.views.channel)] else []));
      batches := batches + 1;
    }

    method PublishAll(subject: string, generation: nat, revision: int, partitions: set<string>, fetch: Fetch)
      requires fetch.Fetched?
      modifies this
      ensures Now() == FullRound(digest, old(Now()), subject, generation, revision, partitions, fetch)
    {
      var previous := lastFingerprints;
      var changes := [];
      if "all" in partitions || "conversation" in partitions { changes := ChangedConversationSessions(fetch.sessions); }
      if fetch.breaks {
        PublishFailure(subject, generation, revision);
        return;
      }
      var prints := PrintsOf(digest, fetch.views);
      lastFingerprints := Some(prints);
      var events := PartitionEvents(previous, prints, fetch.views, changes);
      if events == [] {
        this.revision := this.revision - 1;
        return;
      }
      Emit(subject, generation, revision, events);
      batches := batches + 1;
    }

    method PublishOnce(subject: string, generation: nat, partitions: set<string>, round: Round)
      modifies this
      ensures Now() == Refreshed(digest, old(Now()), subject, generation, partitions, round)
    {
      var channelOnly := ChannelOnly(Now(), partitions);
      revision := revision + 1;
      var current := revision;
      Reenter(round);
      if round.fetch.Throws? {
        PublishFailure(subject, generation, current);
      } else if Current(Now(), subject, generation) {
        if channelOnly {
          PublishChannel(subject, generation, current, partitions, round.fetch);
        } else {
          PublishAll(subject, generation, current, partitions, round.fetch);
        }
      }
    }

    method Publish(subject: string, reason: string, generation: nat, partitions: set<string>, rounds: seq<Round>)
      modifies this
      ensures Now() == Published(digest, old(Now()), subject, generation, reason, partitions, rounds)
      ensures old(refreshInFlight) || !old(Current(Now(), subject, generation)) ==> bus == old(bus)
      decreases |rounds|
    {
      if !Current(Now(), subject, generation) { return; }
      if refreshInFlight {
        Defer(reason, partitions);
        return;
      }
      refreshInFlight := true;
      PublishOnce(subject, generation, partitions, if rounds == [] then QUIET else rounds[0]);
      refreshInFlight := false;
      if refreshDirty && Current(Now(), subject, generation) && rounds != [] {
        refreshDirty := false;
        var followReason, followPartitions := pendingReason, pendingPartitions;
        pendingPartitions := {};
        Publish(subject, followReason, generation, followPartitions, rounds[1..]);
      }
    }
  }
}
