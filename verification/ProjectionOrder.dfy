/** Revisions, watch generations and the merging of refreshes that are asked for while one is under way. */
module ProjectionOrder {

  import opened Prelude
  import opened Projection

  // ---------------------------------------------------------------- order of the events

  /** Batches go out one after the other with increasing revisions, and no event of an old watch
      follows one of a newer watch. */
  ghost predicate InOrder(a: Logged, b: Logged)
  {
    && a.batch <= b.batch && a.generation <= b.generation
    && (a.batch == b.batch ==> a.revision == b.revision && a.generation == b.generation)
    && (a.batch < b.batch ==> a.revision < b.revision)
    && (a.generation == b.generation ==> a.subject == b.subject)
  }

  ghost predicate Ordered(log: seq<Logged>)
  {
    forall i, j :: 0 <= i < j < |log| ==> InOrder(log[i], log[j])
  }

  ghost predicate Behind(e: Logged, s: State)
  {
    && e.generation <= s.generation && e.batch < s.batches && e.revision <= s.revision
    && (e.generation == s.generation ==> s.subject == Some(e.subject))
  }

  ghost predicate Counted(s: State)
  {
    Ordered(s.log) && forall e :: e in s.log ==> Behind(e, s)
  }

  /** No event has gone out with this revision yet. */
  ghost predicate Unused(log: seq<Logged>, revision: int)
  {
    forall e :: e in log ==> e.revision < revision
  }

  lemma SentCounted(s: State, subject: string, revision: int, events: seq<Event>)
    requires Counted(s) && s.subject == Some(subject) && Unused(s.log, revision) && revision <= s.revision
    ensures Counted(Sent(s, subject, s.generation, revision, events))
  {
    var s' := Sent(s, subject, s.generation, revision, events);
    var n := |s.log|;
    forall i, j | 0 <= i < j < |s'.log| ensures InOrder(s'.log[i], s'.log[j]) {
      assert i < n ==> s'.log[i] == s.log[i] && s.log[i] in s.log && Behind(s.log[i], s);
    }
  }

  lemma FailedCounted(s: State, subject: string, generation: nat, revision: int)
    requires Counted(s)
    requires s.subject == Some(subject) && generation == s.generation ==>
               Unused(s.log, revision) && revision <= s.revision
    ensures Counted(Failed(s, subject, generation, revision))
  {
    hide Counted, Unused, Sent;
    if s.subject == Some(subject) && s.generation == generation {
      SentCounted(s, subject, revision, [RefreshFailed, EvolutionStale]);
    }
  }

  lemma StoppedCounted(s: State)
    requires Counted(s)
    ensures Counted(Stopped(s)) && Unused(s.log, s.revision + 1)
  {
  }

  lemma WatchedCounted(s: State, subject: string, starts: bool)
    requires Counted(s)
    ensures Counted(Watched(s, subject, starts))
    ensures !(s.subject == Some(subject) && s.watching) && starts ==>
              Unused(Watched(s, subject, true).log, Watched(s, subject, true).revision)
  {
    hide Failed;
    StoppedCounted(s);
    var anew := Stopped(s).(generation := s.generation + 2, subject := Some(subject));
    FailedCounted(anew, subject, anew.generation, anew.revision);
  }

  lemma ReenteredCounted(s: State, round: Round)
    requires Counted(s)
    ensures var s' := Reentered(s, round);
            && Counted(s') && s.generation <= s'.generation && (s'.generation == s.generation ==> Asks(s, s'))
  {
    hide Unused, Ordered;
    var noticed := NoticedAll(s, round.notices);
    NoticesAsk(s, round.notices);
    match round.interrupt
    case Undisturbed =>
    case Stops => StoppedCounted(noticed);
    case Rewatches(subject, starts) => WatchedCounted(noticed, subject, starts);
  }

  lemma Decremented(s: State)
    requires Counted(s) && Unused(s.log, s.revision)
    ensures Counted(s.(revision := s.revision - 1))
  {
  }

  lemma ChannelRoundCounted(d: Digest, s: State, subject: string, partitions: set<string>, fetch: Fetch)
    requires fetch.Fetched? && s.subject == Some(subject) && Counted(s) && Unused(s.log, s.revision)
    ensures Counted(ChannelRound(d, s, subject, s.generation, s.revision, partitions, fetch))
  {
    hide Changes, Sent;
    var wanted := "conversation" in partitions;
    var s1 := Compared(d, s, fetch.sessions, wanted);
    var mark := d.view(fetch.views.channel);
    var changed := s.last.Some? && mark != s.last.value.channel;
    FailedCounted(s1, subject, s.generation, s.revision);
    Decremented(s1);
    var s2 := if changed then s1.(last := Some(s.last.value.(channel := mark))) else s1;
    SentCounted(s2, subject, s.revision,
                Changes(d, s, fetch.sessions, wanted)
                + (if changed then [ChannelUpdated(fetch.views.channel)] else []));
  }

  lemma FullRoundCounted(d: Digest, s: State, subject: string, partitions: set<string>, fetch: Fetch)
    requires fetch.Fetched? && s.subject == Some(subject) && Counted(s) && Unused(s.log, s.revision)
    ensures Counted(FullRound(d, s, subject, s.generation, s.revision, partitions, fetch))
  {
    hide Changes, Sent, PartitionEvents;
    var wanted := "all" in partitions || "conversation" in partitions;
    var s1 := Compared(d, s, fetch.sessions, wanted);
    FailedCounted(s1, subject, s.generation, s.revision);
    var s2 := s1.(last := Some(PrintsOf(d, fetch.views)));
    Decremented(s2);
    SentCounted(s2, subject, s.revision,
                PartitionEvents(s.last, PrintsOf(d, fetch.views), fetch.views, Changes(d, s, fetch.sessions, wanted)));
  }

  lemma Raised(s: State)
    requires Counted(s)
    ensures var s' := s.(revision := s.revision + 1); Counted(s') && Unused(s'.log, s'.revision)
  {
  }

  lemma RefreshedCounted(d: Digest, s: State, subject: string, generation: nat, partitions: set<string>, round: Round)
    requires Current(s, subject, generation) && Counted(s)
    ensures Counted(Refreshed(d, s, subject, generation, partitions, round))
  {
    hide Counted, Unused, Reentered, ChannelRound, FullRound, Failed;
    var s0 := s.(revision := s.revision + 1);
    Raised(s);
    ReenteredCounted(s0, round);
    var s1 := Reentered(s0, round);
    FailedCounted(s1, subject, generation, s0.revision);
    if round.fetch.Fetched? && Current(s1, subject, generation) {
      if ChannelOnly(s, partitions) {
        ChannelRoundCounted(d, s1, subject, partitions, round.fetch);
      } else {
        FullRoundCounted(d, s1, subject, partitions, round.fetch);
      }
    }
  }

  lemma AsideCounted(s: State, s': State)
    requires Counted(s) && s' == s.(dirty := s'.dirty, pendingReason := s'.pendingReason, pending := s'.pending,
                                    inFlight := s'.inFlight)
    ensures Counted(s')
  {
  }

  lemma {:induction false} PublishedCounted(d: Digest, s: State, subject: string, generation: nat, reason: string,
                                            partitions: set<string>, rounds: seq<Round>)
    requires Counted(s)
    ensures Counted(Published(d, s, subject, generation, reason, partitions, rounds))
    decreases |rounds|
  {
    hide Counted, Refreshed;
    AsideCounted(s, Noticed(s, Notice(reason, partitions)));
    if Current(s, subject, generation) && !s.inFlight {
      var round := if rounds == [] then QUIET else rounds[0];
      var s0 := s.(inFlight := true);
      AsideCounted(s, s0);
      RefreshedCounted(d, s0, subject, generation, partitions, round);
      var s1 := Refreshed(d, s0, subject, generation, partitions, round).(inFlight := false);
      AsideCounted(Refreshed(d, s0, subject, generation, partitions, round), s1);
      AsideCounted(s1, s1.(dirty := false, pending := {}));
      if s1.dirty && Current(s1, subject, generation) && rounds != [] {
        PublishedCounted(d, s1.(dirty := false, pending := {}), subject, generation, s1.pendingReason, s1.pending,
                         rounds[1..]);
      }
    }
  }

  lemma {:induction false} AskedCounted(d: Digest, s: State, subject: string, generation: nat, asks: seq<Ask>)
    requires Counted(s)
    ensures Counted(Asked(d, s, subject, generation, asks))
  {
    hide Counted, Published;
    if asks != [] {
      var n := |asks| - 1;
      AskedCounted(d, s, subject, generation, asks[..n]);
      var ask := asks[n];
      PublishedCounted(d, Asked(d, s, subject, generation, asks[..n]), subject, generation, ask.reason,
                       ask.partitions, ask.rounds);
    }
  }

  // ---------------------------------------------------------------- the last revision is the last published one

  /** From `s` to `s'`: a newer watch; or nothing published and the revision back where it was; or the
      revision is that of the last event. */
  ghost predicate Grown(s: State, s': State)
  {
    || s.generation < s'.generation
    || (s.generation == s'.generation && s.log == s'.log && s.revision == s'.revision)
    || (s.generation == s'.generation && |s.log| < |s'.log| && s'.log[|s'.log| - 1].revision == s'.revision)
  }

  lemma ReenteredGrows(s: State, round: Round)
    ensures var s' := Reentered(s, round);
            s.generation <= s'.generation && (s'.generation == s.generation ==> Asks(s, s'))
  {
    NoticesAsk(s, round.notices);
  }

  /** A round that has come back to its watch, after the revision was raised. */
  ghost predicate Answered(s: State, s': State)
  {
    && s' == s.(last := s'.last, lastSessions := s'.lastSessions, log := s'.log, batches := s'.batches,
                revision := s'.revision)
    && ((s'.log == s.log && s'.revision == s.revision - 1)
        || (|s.log| < |s'.log| && s'.log[|s'.log| - 1].revision == s.revision == s'.revision))
  }

  lemma ChannelRoundAnswers(d: Digest, s: State, subject: string, partitions: set<string>, fetch: Fetch)
    requires fetch.Fetched? && s.subject == Some(subject)
    ensures Answered(s, ChannelRound(d, s, subject, s.generation, s.revision, partitions, fetch))
  {
    hide Changes;
  }

  lemma FullRoundAnswers(d: Digest, s: State, subject: string, partitions: set<string>, fetch: Fetch)
    requires fetch.Fetched? && s.subject == Some(subject)
    ensures Answered(s, FullRound(d, s, subject, s.generation, s.revision, partitions, fetch))
  {
    hide Changes, PartitionEvents;
  }

  /** A refresh either comes back to its watch and is answered there, or leaves things as it found them. */
  lemma RefreshedAnswers(d: Digest, s: State, subject: string, generation: nat, partitions: set<string>, round: Round)
    requires Current(s, subject, generation)
    ensures var s1 := Reentered(s.(revision := s.revision + 1), round);
            var s' := Refreshed(d, s, subject, generation, partitions, round);
            if Current(s1, subject, generation) then Answered(s1, s') else s' == s1
  {
    hide Reentered, ChannelRound, FullRound, ChannelOnly;
    var s1 := Reentered(s.(revision := s.revision + 1), round);
    ReenteredGrows(s.(revision := s.revision + 1), round);
    if Current(s1, subject, generation) && round.fetch.Fetched? {
      ChannelRoundAnswers(d, s1, subject, partitions, round.fetch);
      FullRoundAnswers(d, s1, subject, partitions, round.fetch);
    }
  }

  lemma RefreshedGrows(d: Digest, s: State, subject: string, generation: nat, partitions: set<string>, round: Round)
    requires Current(s, subject, generation)
    ensures Grown(s, Refreshed(d, s, subject, generation, partitions, round))
  {
    hide Reentered, Refreshed;
    ReenteredGrows(s.(revision := s.revision + 1), round);
    RefreshedAnswers(d, s, subject, generation, partitions, round);
  }

  lemma {:induction false} PublishedGrows(d: Digest, s: State, subject: string, generation: nat, reason: string,
                                          partitions: set<string>, rounds: seq<Round>)
    ensures Grown(s, Published(d, s, subject, generation, reason, partitions, rounds))
    decreases |rounds|
  {
    hide Refreshed;
    if Current(s, subject, generation) && !s.inFlight {
      var round := if rounds == [] then QUIET else rounds[0];
      var s0 := s.(inFlight := true);
      RefreshedGrows(d, s0, subject, generation, partitions, round);
      var s1 := Refreshed(d, s0, subject, generation, partitions, round).(inFlight := false);
      if s1.dirty && Current(s1, subject, generation) && rounds != [] {
        PublishedGrows(d, s1.(dirty := false, pending := {}), subject, generation, s1.pendingReason, s1.pending,
                       rounds[1..]);
      }
    }
  }

  lemma {:induction false} AskedGrows(d: Digest, s: State, subject: string, generation: nat, asks: seq<Ask>)
    ensures Grown(s, Asked(d, s, subject, generation, asks))
  {
    hide Published;
    if asks != [] {
      var n := |asks| - 1;
      AskedGrows(d, s, subject, generation, asks[..n]);
      var ask := asks[n];
      PublishedGrows(d, Asked(d, s, subject, generation, asks[..n]), subject, generation, ask.reason, ask.partitions,
                     ask.rounds);
    }
  }

  // ---------------------------------------------------------------- where the order fails

  /** A new watch whose runtime watcher publishes something and then throws. */
  ghost predicate Reuses(d: Digest, s: State, subject: string, starts: bool, early: seq<Ask>)
  {
    var begun := Watched(s, subject, true);
    var asked := Asked(d, begun, subject, begun.generation, early);
    && !(s.subject == Some(subject) && s.watching) && !starts
    && asked.subject == Some(subject) && asked.generation == begun.generation && asked.log != begun.log
  }

  lemma SameRevision(s: State, subject: string)
    requires s.log != [] && Behind(s.log[|s.log| - 1], s) && s.log[|s.log| - 1].revision == s.revision
    ensures !Ordered(Sent(s, subject, s.generation, s.revision, [RefreshFailed, EvolutionStale]).log)
  {
    var s' := Sent(s, subject, s.generation, s.revision, [RefreshFailed, EvolutionStale]);
    var n := |s.log|;
    assert s'.log[n - 1] == s.log[n - 1] && s'.log[n].revision == s.revision && s'.log[n].batch == s.batches;
    assert !InOrder(s'.log[n - 1], s'.log[n]);
  }

  /** `watch` keeps the order exactly when it does not reuse a revision for its failure. */
  lemma WatchedEarlyCounted(d: Digest, s: State, subject: string, starts: bool, early: seq<Ask>)
    requires Counted(s)
    ensures Counted(WatchedEarly(d, s, subject, starts, early)) <==> !Reuses(d, s, subject, starts, early)
  {
    if !(s.subject == Some(subject) && s.watching) {
      var begun := Watched(s, subject, true);
      WatchedCounted(s, subject, true);
      AskedCounted(d, begun, subject, begun.generation, early);
      AskedGrows(d, begun, subject, begun.generation, early);
      var asked := Asked(d, begun, subject, begun.generation, early);
      hide Watched, Asked;
      if !starts { FailureCounted(begun, asked, subject); }
    }
  }

  lemma FailureCounted(begun: State, asked: State, subject: string)
    requires Counted(asked) && Grown(begun, asked) && Unused(begun.log, begun.revision)
    ensures Counted(Failed(asked.(watching := false), subject, begun.generation, asked.revision)) <==>
            !(asked.subject == Some(subject) && asked.generation == begun.generation && asked.log != begun.log)
  {
    var failing := asked.(watching := false);
    assert forall e :: Behind(e, asked) <==> Behind(e, failing);
    if asked.subject == Some(subject) && asked.generation == begun.generation && asked.log != begun.log {
      assert asked.log[|asked.log| - 1] in asked.log;
      SameRevision(failing, subject);
    } else {
      FailedCounted(failing, subject, begun.generation, asked.revision);
    }
  }

  ghost predicate CallReuses(d: Digest, s: State, call: Call)
  {
    call.Watch? && Reuses(d, s, call.subject, call.starts, call.early)
  }

  lemma CalledCounted(d: Digest, s: State, call: Call)
    requires Counted(s)
    ensures Counted(Called(d, s, call)) <==> !CallReuses(d, s, call)
  {
    hide Counted, WatchedEarly, Reuses, Published, Stopped;
    match call
    case Watch(subject, starts, early) => WatchedEarlyCounted(d, s, subject, starts, early);
    case Stop => StoppedCounted(s);
    case Notify(subject, generation, reason, partitions, rounds) =>
      PublishedCounted(d, s, subject, generation, reason, partitions, rounds);
  }

  /** In every run in which no watch reuses a revision for its failure, revisions strictly increase
      from batch to batch over the whole life of the watcher. */
  lemma {:induction false} RunCounted(d: Digest, calls: seq<Call>)
    requires forall k :: 0 <= k < |calls| ==> !CallReuses(d, Run(d, calls[..k]), calls[k])
    ensures Counted(Run(d, calls))
  {
    hide Called, CallReuses;
    if calls != [] {
      var n := |calls| - 1;
      forall k | 0 <= k < n ensures !CallReuses(d, Run(d, calls[..n][..k]), calls[..n][k]) {
        assert calls[..n][..k] == calls[..k];
      }
      RunCounted(d, calls[..n]);
      CalledCounted(d, Run(d, calls[..n]), calls[n]);
    }
  }

  /** A runtime watcher that does not both publish during its start and throw never leads there; one
      that debounces its notices publishes nothing during its start. */
  predicate Orderly(call: Call)
  {
    call.Watch? ==> call.starts || call.early == []
  }

  lemma OrderlyNeverReuses(d: Digest, s: State, call: Call)
    requires Orderly(call)
    ensures !CallReuses(d, s, call)
  {
    hide Watched;
  }

  lemma OrderlyRunCounted(d: Digest, calls: seq<Call>)
    requires forall c :: c in calls ==> Orderly(c)
    ensures Counted(Run(d, calls))
  {
    hide CallReuses, Run, Orderly, Counted;
    forall k | 0 <= k < |calls| ensures !CallReuses(d, Run(d, calls[..k]), calls[k]) {
      OrderlyNeverReuses(d, Run(d, calls[..k]), calls[k]);
    }
    RunCounted(d, calls);
  }

  /** The reuse does happen: the first refresh of a watch always publishes, and here the watcher throws
      after it. */
  lemma ReuseHappens(d: Digest, s: State, subject: string, reason: string, views: Views, sessions: seq<Session>)
    requires AtRest(s) && !(s.subject == Some(subject) && s.watching)
    ensures var round := Round(Fetched(views, sessions, false), [], Undisturbed);
            Reuses(d, s, subject, false, [Ask(reason, {"all"}, [round])])
  {
    var round := Round(Fetched(views, sessions, false), [], Undisturbed);
    var ask := Ask(reason, {"all"}, [round]);
    var begun := Watched(s, subject, true);
    var s0 := begun.(inFlight := true);
    FirstPublishes(d, s0, subject, views, sessions);
    hide Refreshed, Watched;
    var after := Refreshed(d, s0, subject, s0.generation, {"all"}, round);
    assert Published(d, begun, subject, begun.generation, reason, {"all"}, [round]) == after.(inFlight := false);
    assert [ask][..0] == [];
    assert Asked(d, begun, subject, begun.generation, []) == begun;
    assert Asked(d, begun, subject, begun.generation, [ask])
        == Published(d, begun, subject, begun.generation, reason, {"all"}, [round]);
  }

  lemma FirstPublishes(d: Digest, s: State, subject: string, views: Views, sessions: seq<Session>)
    requires Current(s, subject, s.generation) && s.last.None? && !s.dirty
    ensures var s' := Refreshed(d, s, subject, s.generation, {"all"},
                                Round(Fetched(views, sessions, false), [], Undisturbed));
            && |s'.log| > |s.log| && Current(s', subject, s.generation) && !s'.dirty
  {
    hide Changes;
    assert "all" in {"all"} && !ChannelOnly(s, {"all"});
    var changes := Changes(d, s, sessions, true);
    assert PartitionEvents(None, PrintsOf(d, views), views, changes) != [];
  }

  // ---------------------------------------------------------------- refreshes asked for meanwhile

  function Union(notices: seq<Notice>): set<string>
  {
    if notices == [] then {} else Union(notices[..|notices| - 1]) + notices[|notices| - 1].partitions
  }

  /** However many notices come during a refresh, one set of partitions covers them: all of theirs,
      or just `all` if one of them asks for it. An empty list of partitions asks for all of them when
      it comes first, and adds nothing later. */
  lemma {:induction false} NoticesCollapse(s: State, notices: seq<Notice>)
    requires s.pending == {} && notices != []
    ensures var s' := NoticedAll(s, notices);
            var union := Union(notices);
            && s'.dirty && s'.pendingReason == notices[|notices| - 1].reason
            && s'.pending == (if "all" in union || notices[0].partitions == {} then {"all"} else union)
  {
    if |notices| > 1 { NoticesCollapse(s, notices[..|notices| - 1]); }
  }

  /** The notices of a refresh lead to exactly one more refresh, whatever their number, and nothing
      is left over when that one is not itself interrupted by notices. */
  lemma OneFollowUp(d: Digest, s: State, subject: string, generation: nat, reason: string, partitions: set<string>,
                    first: Round, second: Round, rest: seq<Round>)
    requires Current(s, subject, generation) && AtRest(s)
    requires first.notices != [] && first.interrupt.Undisturbed? && second.notices == []
    ensures var union := Union(first.notices);
            var due := if "all" in union || first.notices[0].partitions == {} then {"all"} else union;
            var s0 := s.(inFlight := true);
            var s1 := Refreshed(d, s0, subject, generation, partitions, first).(dirty := false, pending := {});
            var s2 := Refreshed(d, s1, subject, generation, due, second).(inFlight := false);
            Published(d, s, subject, generation, reason, partitions, [first, second] + rest) == s2 && AtRest(s2)
  {
    var rounds := [first, second] + rest;
    assert rounds[1..] == [second] + rest && ([second] + rest)[0] == second;
    var s0 := s.(inFlight := true);
    var s1 := Refreshed(d, s0, subject, generation, partitions, first);
    RefreshedAsks(d, s0, subject, generation, partitions, first);
    NoticesCollapse(s0.(revision := s0.revision + 1), first.notices);
    NoticesAsk(s0.(revision := s0.revision + 1), first.notices);
    var t := s1.(dirty := false, pending := {});
    RefreshedAsks(d, t, subject, generation, s1.pending, second);
    ReenteredGrows(t.(revision := t.revision + 1), second);
    hide Refreshed, NoticedAll;
    assert s1.(inFlight := false).(dirty := false, pending := {}).(inFlight := true) == t;
  }

  /** A refresh changes what is asked for next only through what its fetch lets in. */
  lemma RefreshedAsks(d: Digest, s: State, subject: string, generation: nat, partitions: set<string>, round: Round)
    requires Current(s, subject, generation)
    ensures var s1 := Reentered(s.(revision := s.revision + 1), round);
            var s' := Refreshed(d, s, subject, generation, partitions, round);
            && s'.dirty == s1.dirty && s'.pending == s1.pending && s'.pendingReason == s1.pendingReason
            && s'.inFlight == s1.inFlight && s'.subject == s1.subject && s'.generation == s1.generation
            && s'.watching == s1.watching
  {
    hide Reentered, Refreshed;
    RefreshedAnswers(d, s, subject, generation, partitions, round);
  }

  /** No refresh is under way and none is owed. */
  predicate AtRest(s: State)
  {
    !s.inFlight && !s.dirty && s.pending == {}
  }

  predicate Owed(s: State)
  {
    s.dirty || s.pending == {}
  }

  lemma {:induction false} NoticesOwed(s: State, notices: seq<Notice>)
    requires Owed(s)
    ensures Owed(NoticedAll(s, notices))
  {
    if notices != [] { NoticesOwed(s, notices[..|notices| - 1]); }
  }

  /** Whatever the fetches let in, a refresh ends at rest: a notice that came meanwhile has been
      served, or its watch is over. */
  lemma {:induction false} PublishedRests(d: Digest, s: State, subject: string, generation: nat, reason: string,
                                          partitions: set<string>, rounds: seq<Round>)
    requires AtRest(s)
    ensures AtRest(Published(d, s, subject, generation, reason, partitions, rounds))
    decreases |rounds|
  {
    if Current(s, subject, generation) {
      var round := if rounds == [] then QUIET else rounds[0];
      var s0 := s.(inFlight := true);
      var up := s0.(revision := s0.revision + 1);
      NoticesOwed(up, round.notices);
      NoticesAsk(up, round.notices);
      RefreshedAsks(d, s0, subject, generation, partitions, round);
      RestsOrContinues(up, subject, generation, round);
      hide Refreshed, Reentered, NoticedAll;
      var s1 := Refreshed(d, s0, subject, generation, partitions, round).(inFlight := false);
      if s1.dirty && Current(s1, subject, generation) && rounds != [] {
        PublishedRests(d, s1.(dirty := false, pending := {}), subject, generation, s1.pendingReason, s1.pending,
                       rounds[1..]);
      }
    }
  }

  lemma RestsOrContinues(s: State, subject: string, generation: nat, round: Round)
    requires Current(s, subject, generation) && !s.dirty && s.pending == {}
    ensures var s' := Reentered(s, round);
            && (s'.dirty || s'.pending == {})
            && (s'.dirty ==> Current(s', subject, generation) && round.notices != [])
  {
    NoticesOwed(s, round.notices);
    NoticesAsk(s, round.notices);
  }

  lemma {:induction false} AskedRests(d: Digest, s: State, subject: string, generation: nat, asks: seq<Ask>)
    requires AtRest(s)
    ensures AtRest(Asked(d, s, subject, generation, asks))
  {
    hide Published;
    if asks != [] {
      var n := |asks| - 1;
      AskedRests(d, s, subject, generation, asks[..n]);
      var ask := asks[n];
      PublishedRests(d, Asked(d, s, subject, generation, asks[..n]), subject, generation, ask.reason, ask.partitions,
                     ask.rounds);
    }
  }

  /** Between calls the watcher is at rest, in every run. */
  lemma {:induction false} RunRests(d: Digest, calls: seq<Call>)
    ensures AtRest(Run(d, calls))
  {
    if calls != [] {
      var n := |calls| - 1;
      RunRests(d, calls[..n]);
      var s := Run(d, calls[..n]);
      hide Published, Asked, Run;
      match calls[n]
      case Watch(subject, _, early) =>
        var begun := Watched(s, subject, true);
        AskedRests(d, begun, subject, begun.generation, early);
      case Stop =>
      case Notify(subject, generation, reason, partitions, rounds) =>
        PublishedRests(d, s, subject, generation, reason, partitions, rounds);
    }
  }
}
