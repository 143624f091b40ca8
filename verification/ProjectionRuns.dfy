/** What every run of the projection watcher keeps. */
module ProjectionRuns {

  import opened Prelude
  import opened Projection

  // ---------------------------------------------------------------- the log and the fingerprints

  ghost predicate NoRepeat(d: Digest, log: seq<Logged>)
  {
    forall i :: 0 <= i < |log| ==> News(d, OriginsOf(log[..i], log[i].generation), log[i].event)
  }

  ghost predicate Past(log: seq<Logged>, generation: nat)
  {
    forall e :: e in log ==> e.generation <= generation
  }

  /** Every event says something new to its generation, and the last events of the current one show
      the views whose fingerprints are kept. */
  ghost predicate Faithful(d: Digest, s: State)
  {
    Past(s.log, s.generation) && NoRepeat(d, s.log) && Matches(d, OriginsOf(s.log, s.generation), s.last)
  }

  /** The sessions announced and not removed are the sessions whose fingerprints are kept. */
  ghost predicate SessionsFollow(s: State)
  {
    OriginsOf(s.log, s.generation).sessions == IdsOf(s.lastSessions)
  }

  lemma EntryIsNews(d: Digest, log: seq<Logged>, batch: seq<Logged>, generation: nat, k: nat)
    requires forall e :: e in batch ==> e.generation == generation
    requires k < |batch| && News(d, TracedAll(OriginsOf(log, generation), Payloads(batch)[..k]), batch[k].event)
    ensures News(d, OriginsOf(log + batch[..k], generation), batch[k].event)
  {
    OriginsOfBatch(log, batch[..k], generation);
    assert Payloads(batch[..k]) == Payloads(batch)[..k];
  }

  lemma NoRepeatAppended(d: Digest, log: seq<Logged>, batch: seq<Logged>, generation: nat)
    requires forall e :: e in batch ==> e.generation == generation
    requires NoRepeat(d, log) && NewsAll(d, OriginsOf(log, generation), Payloads(batch))
    ensures NoRepeat(d, log + batch)
  {
    var all := log + batch;
    forall i | 0 <= i < |all| ensures News(d, OriginsOf(all[..i], all[i].generation), all[i].event) {
      if i < |log| {
        assert all[..i] == log[..i];
      } else {
        var k := i - |log|;
        EntryIsNews(d, log, batch, generation, k);
        assert all[..i] == log + batch[..k];
      }
    }
  }

  lemma BatchAppended(d: Digest, s: State, subject: string, revision: int, events: seq<Event>)
    requires Past(s.log, s.generation) && NoRepeat(d, s.log)
    requires NewsAll(d, OriginsOf(s.log, s.generation), events)
    ensures var s' := Sent(s, subject, s.generation, revision, events);
            && Past(s'.log, s.generation) && NoRepeat(d, s'.log)
            && OriginsOf(s'.log, s.generation) == TracedAll(OriginsOf(s.log, s.generation), events)
  {
    var batch := Tagged(events, s.generation, s.batches, subject, revision);
    TaggedPayloads(events, s.generation, s.batches, subject, revision);
    NoRepeatAppended(d, s.log, batch, s.generation);
    OriginsOfBatch(s.log, batch, s.generation);
  }

  lemma FailureTells(d: Digest, b: Origins)
    ensures TracedAll(b, [RefreshFailed, EvolutionStale]) == b && NewsAll(d, b, [RefreshFailed, EvolutionStale])
  {
    OneTraced(d, b, RefreshFailed);
    OneTraced(d, b, EvolutionStale);
    TracedNews(d, b, [RefreshFailed], [EvolutionStale]);
    assert [RefreshFailed] + [EvolutionStale] == [RefreshFailed, EvolutionStale];
  }

  lemma FailedKeeps(d: Digest, s: State, subject: string, generation: nat, revision: int)
    requires Faithful(d, s)
    ensures var s' := Failed(s, subject, generation, revision);
            Faithful(d, s') && (SessionsFollow(s') <==> SessionsFollow(s))
  {
    FailureTells(d, OriginsOf(s.log, s.generation));
    BatchAppended(d, s, subject, revision, [RefreshFailed, EvolutionStale]);
  }

  /** A watch that begins with nothing kept has told its subscribers nothing. */
  lemma AnewKeeps(d: Digest, s: State, anew: State)
    requires Faithful(d, s)
    requires anew.log == s.log && s.generation < anew.generation && anew.last.None? && anew.lastSessions.None?
    ensures Faithful(d, anew) && SessionsFollow(anew)
  {
    OriginsOfLater(s.log, anew.generation);
  }

  lemma StoppedKeeps(d: Digest, s: State)
    requires Faithful(d, s)
    ensures Faithful(d, Stopped(s)) && SessionsFollow(Stopped(s))
  {
    hide Faithful, SessionsFollow;
    AnewKeeps(d, s, Stopped(s));
  }

  lemma WatchedKeeps(d: Digest, s: State, subject: string, starts: bool)
    requires Faithful(d, s)
    ensures Faithful(d, Watched(s, subject, starts))
    ensures SessionsFollow(s) ==> SessionsFollow(Watched(s, subject, starts))
  {
    hide Faithful, SessionsFollow, Failed;
    var anew := Stopped(s).(generation := s.generation + 2, subject := Some(subject));
    AnewKeeps(d, s, anew);
    AnewKeeps(d, s, anew.(watching := true));
    FailedKeeps(d, anew, subject, anew.generation, anew.revision);
  }

  /** A fetch that returns to its own watch has changed nothing but what was asked for; one that
      does not has left a new watch, or none. */
  lemma ReenteredKeeps(d: Digest, s: State, round: Round)
    requires Faithful(d, s)
    ensures var s' := Reentered(s, round);
            && Faithful(d, s') && (SessionsFollow(s) ==> SessionsFollow(s'))
            && s.generation <= s'.generation
            && (s'.generation == s.generation ==> Asks(s, s'))
  {
    var noticed := NoticedAll(s, round.notices);
    NoticesAsk(s, round.notices);
    match round.interrupt
    case Undisturbed =>
    case Stops => StoppedKeeps(d, noticed);
    case Rewatches(subject, starts) => WatchedKeeps(d, noticed, subject, starts);
  }

  // ---------------------------------------------------------------- one refresh

  /** The branch that loses announcements: the sessions were compared, and then the views threw. */
  ghost predicate Loses(d: Digest, s: State, sessions: seq<Session>, wanted: bool, breaks: bool)
  {
    breaks && wanted && Ids(SessionPrints(d, sessions)) != IdsOf(s.lastSessions)
  }

  lemma ChangesTraced(d: Digest, s: State, b: Origins, sessions: seq<Session>, wanted: bool)
    ensures var changes := Changes(d, s, sessions, wanted);
            && AboutSessions(changes) && NewsAll(d, b, changes)
            && OnlySessions(b, TracedAll(b, changes))
            && (b.sessions == IdsOf(s.lastSessions) ==>
                  TracedAll(b, changes).sessions == IdsOf(Compared(d, s, sessions, wanted).lastSessions))
  {
    var changes := Changes(d, s, sessions, wanted);
    var next := SessionPrints(d, sessions);
    var known := match s.lastSessions case None => [] case Some(ps) => ps;
    ChangesAreAboutSessions(known, next);
    SessionsAlone(d, b, changes);
    if b.sessions == IdsOf(s.lastSessions) { SessionChangesTraced(b, s.lastSessions, next); }
  }

  lemma ChannelPartTraced(d: Digest, b: Origins, last: Option<Prints>, changes: seq<Event>, channel: View,
                          changed: bool)
    requires Matches(d, b, last) && AboutSessions(changes)
    requires changed <==> last.Some? && d.view(channel) != last.value.channel
    ensures var events := changes + (if changed then [ChannelUpdated(channel)] else []);
            && NewsAll(d, b, events)
            && TracedAll(b, events).sessions == TracedAll(b, changes).sessions
            && Matches(d, TracedAll(b, events), if changed then Some(last.value.(channel := d.view(channel))) else last)
  {
    var rest := if changed then [ChannelUpdated(channel)] else [];
    SessionsAlone(d, b, changes);
    if changed { OneTraced(d, TracedAll(b, changes), ChannelUpdated(channel)); }
    TracedNews(d, b, changes, rest);
  }

  lemma ChannelRoundKeeps(d: Digest, s: State, subject: string, revision: int, partitions: set<string>, fetch: Fetch)
    requires fetch.Fetched? && s.subject == Some(subject)
    requires Faithful(d, s)
    ensures var s' := ChannelRound(d, s, subject, s.generation, revision, partitions, fetch);
            && Faithful(d, s') && s'.generation == s.generation
            && (SessionsFollow(s) ==>
                  (SessionsFollow(s') <==> !Loses(d, s, fetch.sessions, "conversation" in partitions, fetch.breaks)))
  {
    var wanted := "conversation" in partitions;
    var changes := Changes(d, s, fetch.sessions, wanted);
    var s1 := Compared(d, s, fetch.sessions, wanted);
    var b := OriginsOf(s.log, s.generation);
    var channel := fetch.views.channel;
    var changed := s.last.Some? && d.view(channel) != s.last.value.channel;
    if fetch.breaks {
      FailedKeeps(d, s1, subject, s.generation, revision);
    } else {
      ChangesTraced(d, s, b, fetch.sessions, wanted);
      ChannelPartTraced(d, b, s.last, changes, channel, changed);
      BatchAppended(d, s1, subject, revision, changes + (if changed then [ChannelUpdated(channel)] else []));
    }
  }

  lemma FullRoundKeeps(d: Digest, s: State, subject: string, revision: int, partitions: set<string>, fetch: Fetch)
    requires fetch.Fetched? && s.subject == Some(subject)
    requires Faithful(d, s)
    ensures var s' := FullRound(d, s, subject, s.generation, revision, partitions, fetch);
            && Faithful(d, s') && s'.generation == s.generation
            && (SessionsFollow(s) ==>
                  (SessionsFollow(s') <==>
                   !Loses(d, s, fetch.sessions, "all" in partitions || "conversation" in partitions, fetch.breaks)))
            && (!fetch.breaks ==> s'.last == Some(PrintsOf(d, fetch.views)))
  {
    var g := s.generation;
    var wanted := "all" in partitions || "conversation" in partitions;
    var changes := Changes(d, s, fetch.sessions, wanted);
    var s1 := Compared(d, s, fetch.sessions, wanted);
    var b := OriginsOf(s.log, g);
    if fetch.breaks {
      FailedKeeps(d, s1, subject, g, revision);
    } else {
      ChangesTraced(d, s, b, fetch.sessions, wanted);
      PartitionsTraced(d, b, s.last, fetch.views, changes);
      var events := PartitionEvents(s.last, PrintsOf(d, fetch.views), fetch.views, changes);
      BatchAppended(d, s1, subject, revision, events);
      assert events == [] ==> changes == [];
    }
  }

  /** Which sessions a refresh compares. */
  predicate Compares(s: State, partitions: set<string>)
  {
    "conversation" in partitions || (!ChannelOnly(s, partitions) && "all" in partitions)
  }

  /** The refresh takes the branch that loses announcements. */
  ghost predicate Breaks(d: Digest, s: State, subject: string, generation: nat, partitions: set<string>, round: Round)
  {
    && round.fetch.Fetched?
    && Current(Reentered(s.(revision := s.revision + 1), round), subject, generation)
    && Loses(d, s, round.fetch.sessions, Compares(s, partitions), round.fetch.breaks)
  }

  lemma HandledKeeps(d: Digest, s: State, s1: State, subject: string, generation: nat, partitions: set<string>,
                     fetch: Fetch)
    requires Faithful(d, s1)
    requires Current(s1, subject, generation) ==> s1.last == s.last && s1.lastSessions == s.lastSessions
    ensures var s' := Handled(d, s, s1, subject, generation, partitions, fetch);
            && Faithful(d, s')
            && (SessionsFollow(s1) ==>
                  (SessionsFollow(s') <==>
                   !(fetch.Fetched? && Current(s1, subject, generation)
                     && Loses(d, s, fetch.sessions, Compares(s, partitions), fetch.breaks))))
  {
    hide Faithful, SessionsFollow, Failed, ChannelRound, FullRound;
    if fetch.Throws? {
      FailedKeeps(d, s1, subject, generation, s.revision + 1);
    } else if Current(s1, subject, generation) {
      if ChannelOnly(s, partitions) {
        ChannelRoundKeeps(d, s1, subject, s.revision + 1, partitions, fetch);
      } else {
        FullRoundKeeps(d, s1, subject, s.revision + 1, partitions, fetch);
      }
    }
  }

  lemma RevisionAside(d: Digest, s: State, revision: int)
    requires Faithful(d, s)
    ensures var s' := s.(revision := revision);
            Faithful(d, s') && (SessionsFollow(s) <==> SessionsFollow(s'))
  {
  }

  /** One refresh: faithful always, and in step with the sessions exactly when it does not lose. */
  lemma RefreshedKeeps(d: Digest, s: State, subject: string, generation: nat, partitions: set<string>, round: Round)
    requires Current(s, subject, generation) && Faithful(d, s)
    ensures var s' := Refreshed(d, s, subject, generation, partitions, round);
            && Faithful(d, s')
            && (SessionsFollow(s) ==> (SessionsFollow(s') <==> !Breaks(d, s, subject, generation, partitions, round)))
  {
    hide Faithful;
    hide SessionsFollow; hide Reentered; hide Handled;
    var s0 := s.(revision := s.revision + 1);
    hide Faithful, SessionsFollow, Reentered, Handled, Loses;
    RevisionAside(d, s, s.revision + 1);
    ReenteredKeeps(d, s0, round);
    HandledKeeps(d, s, Reentered(s0, round), subject, generation, partitions, round.fetch);
  }

  // ---------------------------------------------------------------- whole runs

  predicate Unbroken(rounds: seq<Round>)
  {
    forall r :: r in rounds && r.fetch.Fetched? ==> !r.fetch.breaks
  }

  lemma {:induction false} PublishedKeeps(d: Digest, s: State, subject: string, generation: nat, reason: string,
                                          partitions: set<string>, rounds: seq<Round>)
    requires Faithful(d, s)
    ensures var s' := Published(d, s, subject, generation, reason, partitions, rounds);
            Faithful(d, s') && (SessionsFollow(s) && Unbroken(rounds) ==> SessionsFollow(s'))
    decreases |rounds|
  {
    hide Refreshed, Loses;
    if Current(s, subject, generation) && !s.inFlight {
      var round := if rounds == [] then QUIET else rounds[0];
      var s0 := s.(inFlight := true);
      RefreshedKeeps(d, s0, subject, generation, partitions, round);
      LosesIsBroken(d, s0, subject, generation, partitions, round);
      var s1 := Refreshed(d, s0, subject, generation, partitions, round).(inFlight := false);
      if s1.dirty && Current(s1, subject, generation) && rounds != [] {
        PublishedKeeps(d, s1.(dirty := false, pending := {}), subject, generation, s1.pendingReason, s1.pending,
                       rounds[1..]);
      }
    }
  }

  lemma LosesIsBroken(d: Digest, s: State, subject: string, generation: nat, partitions: set<string>, round: Round)
    ensures Breaks(d, s, subject, generation, partitions, round) ==> round.fetch.Fetched? && round.fetch.breaks
  {
  }

  predicate AsksUnbroken(asks: seq<Ask>)
  {
    forall a :: a in asks ==> Unbroken(a.rounds)
  }

  lemma {:induction false} AskedKeeps(d: Digest, s: State, subject: string, generation: nat, asks: seq<Ask>)
    requires Faithful(d, s)
    ensures var s' := Asked(d, s, subject, generation, asks);
            Faithful(d, s') && (SessionsFollow(s) && AsksUnbroken(asks) ==> SessionsFollow(s'))
  {
    hide Faithful, SessionsFollow, Published, Unbroken;
    if asks != [] {
      var n := |asks| - 1;
      AskedKeeps(d, s, subject, generation, asks[..n]);
      var ask := asks[n];
      PublishedKeeps(d, Asked(d, s, subject, generation, asks[..n]), subject, generation, ask.reason, ask.partitions,
                     ask.rounds);
    }
  }

  lemma WatchedEarlyKeeps(d: Digest, s: State, subject: string, starts: bool, early: seq<Ask>)
    requires Faithful(d, s)
    ensures var s' := WatchedEarly(d, s, subject, starts, early);
            Faithful(d, s') && (SessionsFollow(s) && AsksUnbroken(early) ==> SessionsFollow(s'))
  {
    hide Watched, Asked, Unbroken, Failed;
    WatchedKeeps(d, s, subject, true);
    var begun := Watched(s, subject, true);
    AskedKeeps(d, begun, subject, begun.generation, early);
    var asked := Asked(d, begun, subject, begun.generation, early);
    FailedKeeps(d, asked.(watching := false), subject, begun.generation, asked.revision);
  }

  predicate CallUnbroken(call: Call)
  {
    match call
    case Watch(_, _, early) => AsksUnbroken(early)
    case Stop => true
    case Notify(_, _, _, _, rounds) => Unbroken(rounds)
  }

  lemma CalledKeeps(d: Digest, s: State, call: Call)
    requires Faithful(d, s)
    ensures Faithful(d, Called(d, s, call))
    ensures SessionsFollow(s) && CallUnbroken(call) ==> SessionsFollow(Called(d, s, call))
  {
    hide Faithful, SessionsFollow, WatchedEarly, Published, Stopped, AsksUnbroken, Unbroken;
    match call
    case Watch(subject, starts, early) => WatchedEarlyKeeps(d, s, subject, starts, early);
    case Stop => StoppedKeeps(d, s);
    case Notify(subject, generation, reason, partitions, rounds) =>
      PublishedKeeps(d, s, subject, generation, reason, partitions, rounds);
  }

  /** In every run, no event repeats what its partition showed before, and what a subscriber of the
      current watch was told last has the fingerprints that are kept. If no view throws after the
      sessions were compared, the subscriber also knows exactly the sessions that are kept. */
  lemma {:induction false} RunKeeps(d: Digest, calls: seq<Call>)
    ensures Faithful(d, Run(d, calls))
    ensures (forall c :: c in calls ==> CallUnbroken(c)) ==> SessionsFollow(Run(d, calls))
  {
    hide Called, CallUnbroken;
    if calls != [] {
      var n := |calls| - 1;
      RunKeeps(d, calls[..n]);
      CalledKeeps(d, Run(d, calls[..n]), calls[n]);
    }
  }

  lemma FullRefreshTraced(d: Digest, s: State, subject: string, generation: nat, partitions: set<string>, round: Round)
    requires Faithful(d, s) && Current(s, subject, generation) && !ChannelOnly(s, partitions)
    requires round.fetch.Fetched? && !round.fetch.breaks
    requires Current(Reentered(s.(revision := s.revision + 1), round), subject, generation)
    ensures var after := Refreshed(d, s, subject, generation, partitions, round);
            var prints := PrintsOf(d, round.fetch.views);
            var o, o' := OriginsOf(s.log, generation), OriginsOf(after.log, generation);
            && after.last == Some(prints) && Faithful(d, after) && after.generation == generation
            && Matches(d, o', Some(prints))
            && o'.attached == (if ShowsCounts(s.last, prints) then Some(round.fetch.views.evolution) else o.attached)
  {
    var s0 := s.(revision := s.revision + 1);
    hide Reentered, Matches, FullRound, ShowsCounts;
    RevisionAside(d, s, s.revision + 1);
    ReenteredKeeps(d, s0, round);
    FullRoundKeeps(d, Reentered(s0, round), subject, s0.revision, partitions, round.fetch);
    FullRoundTraced(d, Reentered(s0, round), subject, s0.revision, partitions, round.fetch);
  }

  lemma FullRoundTraced(d: Digest, s: State, subject: string, revision: int, partitions: set<string>, fetch: Fetch)
    requires fetch.Fetched? && !fetch.breaks && s.subject == Some(subject) && Faithful(d, s)
    ensures var s' := FullRound(d, s, subject, s.generation, revision, partitions, fetch);
            var o, o' := OriginsOf(s.log, s.generation), OriginsOf(s'.log, s.generation);
            o'.attached ==
            if ShowsCounts(s.last, PrintsOf(d, fetch.views)) then Some(fetch.views.evolution) else o.attached
  {
    var wanted := "all" in partitions || "conversation" in partitions;
    var changes := Changes(d, s, fetch.sessions, wanted);
    var b := OriginsOf(s.log, s.generation);
    ChangesTraced(d, s, b, fetch.sessions, wanted);
    PartitionsTraced(d, b, s.last, fetch.views, changes);
    var events := PartitionEvents(s.last, PrintsOf(d, fetch.views), fetch.views, changes);
    hide ShowsCounts, PartitionEvents;
    BatchAppended(d, Compared(d, s, fetch.sessions, wanted), subject, revision, events);
  }

  // ---------------------------------------------------------------- what fails

  lemma {:induction false} NothingGone(previous: seq<SessionPrint>, next: seq<SessionPrint>)
    requires forall p :: p in previous ==> p in next
    ensures Gone(previous, next) == []
    decreases |previous|
  {
    if previous != [] {
      NothingGone(previous[1..], next);
      assert previous[0] in next;
    }
  }

  lemma {:induction false} NothingChanged(previous: seq<SessionPrint>, next: seq<SessionPrint>)
    requires forall p :: p in next ==> p in previous
    ensures Changed(previous, next) == []
    decreases |next|
  {
    if next != [] { NothingChanged(previous, next[1..]); }
  }

  /** A refresh that sees the sessions it has compared before announces none of them. */
  lemma SameSessionsAgain(d: Digest, s: State, subject: string, revision: int, fetch: Fetch)
    requires fetch.Fetched? && s.subject == Some(subject) && Faithful(d, s)
    requires s.lastSessions == Some(SessionPrints(d, fetch.sessions))
    ensures var s' := FullRound(d, s, subject, s.generation, revision, {"all"}, fetch);
            && s'.generation == s.generation && s'.lastSessions == s.lastSessions
            && OriginsOf(s'.log, s.generation).sessions == OriginsOf(s.log, s.generation).sessions
  {
    hide SessionPrints;
    var next := SessionPrints(d, fetch.sessions);
    NothingChanged(next, next);
    NothingGone(next, next);
    var b := OriginsOf(s.log, s.generation);
    if fetch.breaks {
      FailureTells(d, b);
      BatchAppended(d, s, subject, revision, [RefreshFailed, EvolutionStale]);
    } else {
      PartitionsTraced(d, b, s.last, fetch.views, []);
      BatchAppended(d, s, subject, revision, PartitionEvents(s.last, PrintsOf(d, fetch.views), fetch.views, []));
    }
  }

  /** A view that throws after the sessions were compared loses their announcement for good: with the
      same sessions, the next refresh leaves the subscriber where it was. */
  lemma LostForGood(d: Digest, s: State, subject: string, first: Views, second: Views, sessions: seq<Session>)
    requires Faithful(d, s) && SessionsFollow(s) && Current(s, subject, s.generation)
    requires Ids(SessionPrints(d, sessions)) != IdsOf(s.lastSessions)
    ensures var broken := Round(Fetched(first, sessions, true), [], Undisturbed);
            var sound := Round(Fetched(second, sessions, false), [], Undisturbed);
            var s1 := Refreshed(d, s, subject, s.generation, {"all"}, broken);
            var s2 := Refreshed(d, s1, subject, s.generation, {"all"}, sound);
            !SessionsFollow(s1) && !SessionsFollow(s2)
  {
    var g := s.generation;
    var broken := Round(Fetched(first, sessions, true), [], Undisturbed);
    var sound := Round(Fetched(second, sessions, false), [], Undisturbed);
    var s1 := Refreshed(d, s, subject, g, {"all"}, broken);
    hide Faithful, SessionsFollow, FullRound, Ids, SessionPrints;
    RefreshedKeeps(d, s, subject, g, {"all"}, broken);
    AfterBroken(d, s, subject, first, sessions);
    RevisionAside(d, s1, s1.revision + 1);
    var s2 := Refreshed(d, s1, subject, g, {"all"}, sound);
    SameSessionsAgain(d, s1.(revision := s1.revision + 1), subject, s1.revision + 1, sound.fetch);
    StillBehind(s1, s2);
  }

  lemma AfterBroken(d: Digest, s: State, subject: string, views: Views, sessions: seq<Session>)
    requires Current(s, subject, s.generation)
    ensures var s1 := Refreshed(d, s, subject, s.generation, {"all"},
                                Round(Fetched(views, sessions, true), [], Undisturbed));
            && Current(s1, subject, s.generation) && s1.lastSessions == Some(SessionPrints(d, sessions))
  {
    hide SessionPrints;
    assert "all" in {"all"} && !ConversationOnly({"all"});
  }

  lemma StillBehind(s: State, s': State)
    requires s'.generation == s.generation && s'.lastSessions == s.lastSessions
    requires OriginsOf(s'.log, s.generation).sessions == OriginsOf(s.log, s.generation).sessions
    ensures SessionsFollow(s) <==> SessionsFollow(s')
  {
  }
}
