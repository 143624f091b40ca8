/**
 What the inspector shows when a load or a selection is through: which cycle is selected, and whose
 details are there.
 */
module InspectorOutcomes {

  import opened Prelude
  import opened Inspector

  /** The preferred cycle if it is listed and not empty, otherwise the default. */
  ghost predicate Picks(request: Request, ids: set<string>, default: Option<string>, selected: Option<string>)
  {
    && (forall c :: request.preferred == Some(c) && c in ids && c != "" ==> selected == Some(c))
    && ((forall c :: request.preferred == Some(c) ==> c !in ids || c == "") ==> selected == default)
  }

  /** The cycle whose details are fetched: that of the event if it is listed, none for an event without
      one, and the selected one otherwise. */
  ghost predicate Wants(request: Request, ids: set<string>, selected: Option<string>, c: string)
  {
    && c != ""
    && match request.wish
       case Preferred => selected == Some(c)
       case Nothing => false
       case Cycle(id) => c == id && id in ids
  }

  /** What is left of the details that were kept. */
  ghost predicate KeepsListed(details: map<string, string>, previous: map<string, string>, ids: set<string>)
  {
    && (forall c :: c in details <==> c in previous && c in ids)
    && (forall c :: c in details ==> details[c] == previous[c])
  }

  /** The list has come: the load goes on to the details of the cycle it wants, or shows what it has. */
  lemma ListOutcome(s: State, k: nat, ids: set<string>, default: Option<string>)
    requires Enabled(s, ListComes(k, ids, default)) && s.running[k].generation == s.generation
    ensures var s' := Next(x => x, s, ListComes(k, ids, default));
            var load := s.running[k];
            && |s'.running| == |s.running|
            && match s'.running[k].phase
               case Listing => false
               case Detailing(next, id) =>
                 && s'.snapshot == s.snapshot && s'.loading == s.loading
                 && next.subject == load.name && !next.stale
                 && Picks(load.request, ids, default, next.selected) && Wants(load.request, ids, next.selected, id)
                 && KeepsListed(next.details, load.previous, ids)
               case Finished =>
                 && s'.snapshot.subject == load.name && !s'.snapshot.stale && !s'.loading
                 && Picks(load.request, ids, default, s'.snapshot.selected)
                 && (forall c :: !Wants(load.request, ids, s'.snapshot.selected, c))
                 && KeepsListed(s'.snapshot.details, load.previous, ids)
  {
  }

  /** The details have come: they join those that were kept. */
  lemma DetailsOutcome(s: State, k: nat)
    requires Enabled(s, DetailsCome(k)) && s.running[k].generation == s.generation
    ensures var s' := Next(x => x, s, DetailsCome(k));
            var next, id, name := s.running[k].phase.next, s.running[k].phase.id, s.running[k].name.value;
            && |s'.running| == |s.running| && s'.running[k].phase.Finished? && !s'.loading
            && s'.snapshot == next.(details := s'.snapshot.details)
            && (forall c :: c in s'.snapshot.details <==> c in next.details || c == id)
            && (forall c :: c in s'.snapshot.details ==> s'.snapshot.details[c] == if c == id then name
                else next.details[c])
  {
  }

  /** Nothing but its own answers moves a load on. */
  lemma LoadIsLeftAlone(trim: string -> string, s: State, step: Step)
    requires Inv(trim, s) && s.inFlight && !step.ListComes? && !step.DetailsCome? && !step.LoadEnds?
    ensures var s' := Next(trim, s, step); s'.running == s.running && s'.inFlight && s'.generation == s.generation
  {
  }

  /** What a load begins with: the subject's own details are kept, those of another subject are not. */
  lemma BeginOutcome(trim: string -> string, s: State, request: Request)
    requires Normal(trim, request.subject).Some?
    ensures var name := Normal(trim, request.subject);
            var s' := Begun(trim, s, request);
            && |s'.running| == |s.running| + 1 && s'.running[..|s.running|] == s.running
            && s'.running[|s.running|] ==
               Load(request, name, s.generation + 1, if s.snapshot.subject == name then s.snapshot.details else map[],
                    Listing)
            && s'.snapshot.subject == name && s'.loading && !s'.snapshot.stale
            && s'.snapshot.selected == (if request.preferred.Some? then request.preferred else s.snapshot.selected)
            && s'.generation == s.generation + 1 && s'.executed == s.executed + [request]
  {
  }

  lemma BlankOutcome(trim: string -> string, s: State, request: Request)
    requires Normal(trim, request.subject).None?
    ensures var s' := Begun(trim, s, request);
            && s'.snapshot == Snapshot(None, map[], None, false) && !s'.loading && s'.lastRevision.None?
            && s'.executed == s.executed + [request]
  {
  }

  /** A whole load of a subject, from the call to its last answer: what was preferred is selected if it is
      listed, and the details of what is selected are there, fetched for the subject. */
  lemma LoadShows(trim: string -> string, s: State, subject: string, preferred: Option<string>, ids: set<string>,
                  default: Option<string>)
    requires !s.inFlight && s.running == [] && trim(subject) != ""
    ensures var s1 := Next(trim, s, LoadCalled(Some(subject), preferred));
            var s2 := Next(trim, s1, ListComes(0, ids, default));
            var s3 := Next(trim, s2, DetailsCome(0));
            var shown := s3.snapshot;
            && |s3.running| == 1 && s3.running[0].phase.Finished?
            && shown.subject == Some(trim(subject))
            && Picks(Request(Some(subject), preferred, None, Preferred), ids, default, shown.selected)
            && (shown.selected.Some? && shown.selected.value != "" ==>
                  shown.selected.value in shown.details && shown.details[shown.selected.value] == trim(subject))
            && (forall c :: c in shown.details ==>
                  shown.selected == Some(c) || (c in ids && s.snapshot.subject == Some(trim(subject))
                                                && c in s.snapshot.details))
  {
    var request := Request(Some(subject), preferred, None, Preferred);
    var s0 := s.(lastRevision := None, lastCycle := None);
    var s1 := Next(trim, s, LoadCalled(Some(subject), preferred));
    BeginOutcome(trim, s0.(accepted := Some(request)), request);
    assert s1 == Begun(trim, s0.(accepted := Some(request)), request);
    var s2 := Next(trim, s1, ListComes(0, ids, default));
    ListOutcome(s1, 0, ids, default);
    hide Begun, Requested, ListArrived, Listed;
    ListAnyTrim(trim, s1, ids, default);
    if s2.running[0].phase.Detailing? {
      DetailsOutcome(s2, 0);
      assert s2.running[0].name == s1.running[0].name && s2.running[0].generation == s2.generation;
    }
  }

  /** Answers do not depend on how subjects are trimmed, and leave the load what it is but for its phase. */
  lemma ListAnyTrim(trim: string -> string, s: State, ids: set<string>, default: Option<string>)
    requires |s.running| == 1 && s.running[0].phase.Listing? && s.running[0].generation == s.generation
    ensures var s' := Next(trim, s, ListComes(0, ids, default));
            && s' == Next(x => x, s, ListComes(0, ids, default)) && s'.generation == s.generation
            && |s'.running| == 1 && s'.running[0] == s.running[0].(phase := s'.running[0].phase)
            && Next(trim, s', DetailsCome(0)) == Next(x => x, s', DetailsCome(0))
  {
  }

  // ---------------------------------------------------------------- selections and events

  /** A cycle whose details are there is selected at once; otherwise they are fetched for the subject. */
  lemma SelectOutcome(trim: string -> string, s: State, id: string)
    ensures var s' := Next(trim, s, SelectCalled(id));
            if id == "" || s.snapshot.subject.None? then s' == s
            else if id in s.snapshot.details then s' == s.(snapshot := s'.snapshot)
                                                  && s'.snapshot == s.snapshot.(selected := Some(id))
            else s' == s.(selections := s'.selections)
                 && s'.selections == s.selections + [Selection(s.snapshot.subject.value, id, s.generation)]
  {
  }

  /** When they come in the same generation, the cycle is selected and its details are there. */
  lemma SelectionOutcome(trim: string -> string, s: State, k: nat)
    requires k < |s.selections|
    ensures var s', x := Next(trim, s, SelectionComes(k)), s.selections[k];
            if x.generation != s.generation then s'.snapshot == s.snapshot
            else && s'.snapshot.selected == Some(x.id) && x.id in s'.snapshot.details
                 && s'.snapshot.details[x.id] == x.subject && s'.snapshot.subject == s.snapshot.subject
                 && (forall c :: c != x.id ==>
                       (c in s'.snapshot.details <==> c in s.snapshot.details)
                       && (c in s.snapshot.details ==> s'.snapshot.details[c] == s.snapshot.details[c]))
  {
  }

  /** An event that says the views are stale marks the snapshot and nothing else. */
  lemma StaleOutcome(trim: string -> string, s: State)
    ensures var s' := Next(trim, s, StaleComes);
            s' == s.(snapshot := s.snapshot.(stale := s.snapshot.stale || s.snapshot.subject.Some?))
  {
  }

  /** An event is loaded for the subject that is shown, preferring its own cycle to the selected one; it is
      dropped if and only if it repeats what is on record, and waits if a load is under way. */
  lemma EventOutcome(trim: string -> string, s: State, cycle: Option<string>, revision: Option<int>)
    requires s.snapshot.subject.Some?
    ensures var s' := Next(trim, s, EventComes(cycle, revision));
            var request := Request(s.snapshot.subject, if cycle.Some? then cycle else s.snapshot.selected, revision,
                                   if cycle.Some? then Cycle(cycle.value) else Nothing);
            var repeats := revision.Some? && revision == s.lastRevision && cycle == s.lastCycle;
            && (repeats ==> s' == s)
            && (!repeats && s.inFlight ==> s' == s.(queued := Some(request), accepted := Some(request)))
            && (!repeats && !s.inFlight ==> s'.executed == s.executed + [request] && s'.inFlight)
  {
  }
}
