/** The code of the inspector controller, one method for each stretch between two awaits. */
module InspectorController {

  import opened Prelude
  import opened Inspector

  class InspectorController {
    const trim: string -> string
    var snapshot: Snapshot
    var loading: bool
    var generation: nat
    var lastRevision: Option<int>
    var lastRevisionCycleId: Option<string>
    var loadInFlight: bool
    var loadQueued: Option<Request>
    var running: seq<Load>
    var selections: seq<Selection>
    ghost var accepted: Option<Request>
    ghost var executed: seq<Request>
    ghost var recordedBy: Option<Load>
    ghost var discarded: nat

    constructor (trim: string -> string)
      ensures Now() == INITIAL && this.trim == trim
    {
      this.trim := trim;
      snapshot, loading, generation := Empty(None), false, 0;
      lastRevision, lastRevisionCycleId, loadInFlight, loadQueued := None, None, false, None;
      running, selections := [], [];
      accepted, executed, recordedBy, discarded := None, [], None, 0;
    }

    ghost function Now(): State
      reads this
    {
      State(snapshot, loading, generation, lastRevision, lastRevisionCycleId, loadInFlight, loadQueued,
            running, selections, accepted, executed, recordedBy, discarded)
    }

    method LoadNow(request: Request)
      modifies this
      ensures Now() == Begun(trim, old(Now()), request)
    {
      hide Normal;
      var name := Normal(trim, request.subject);
      generation := generation + 1;
      loadInFlight := true;
      executed := executed + [request];
      if name.None? { LoadNothing(request); } else { LoadSubject(request, name); }
    }

    method LoadNothing(request: Request)
      modifies this`snapshot, this`loading, this`lastRevision, this`running
      ensures snapshot == Empty(None) && !loading && lastRevision == None
      ensures running == old(running) + [Load(request, None, generation, map[], Finished)]
    {
      snapshot, loading, lastRevision := Empty(None), false, None;
      running := running + [Load(request, None, generation, map[], Finished)];
    }

    method LoadSubject(request: Request, name: Option<string>)
      modifies this`snapshot, this`loading, this`running
      ensures loading
      ensures snapshot == old(snapshot).(
        subject := name, stale := false,
        selected := Preference(request, old(snapshot)))
      ensures running == old(running) + [
        Load(request, name, generation, if old(snapshot.subject) == name then old(snapshot.details) else map[],
             Listing)]
    {
      var previous := if snapshot.subject == name then snapshot.details else map[];
      loading := true;
      snapshot := snapshot.(subject := name, stale := false,
                            selected := Preference(request, snapshot));
      running := running + [Load(request, name, generation, previous, Listing)];
    }

    method LoadCoalesced(request: Request)
      modifies this
      ensures Now() == Requested(trim, old(Now()), request)
      ensures old(loadInFlight) ==> running == old(running) && snapshot == old(snapshot)
    {
      if && request.revision.Some? && request.revision == lastRevision && !request.wish.Preferred?
         && WishedCycle(request.wish) == lastRevisionCycleId && request.subject == snapshot.subject {
        return;
      }
      accepted := Some(request);
      if loadInFlight {
        loadQueued := Some(request);
        return;
      }
      LoadNow(request);
    }

    method CallLoad(subject: Option<string>, preferred: Option<string>)
      modifies this
      ensures Now() == Next(trim, old(Now()), LoadCalled(subject, preferred))
    {
      lastRevision, lastRevisionCycleId := None, None;
      LoadCoalesced(Request(subject, preferred, None, Preferred));
    }

    method HandleEvent(cycle: Option<string>, revision: Option<int>, stale: bool)
      modifies this
      ensures Now() == Next(trim, old(Now()), if stale then StaleComes else EventComes(cycle, revision))
    {
      if snapshot.subject.None? { return; }
      if stale {
        snapshot := snapshot.(stale := true);
        return;
      }
      LoadCoalesced(Request(snapshot.subject, if cycle.Some? then cycle else snapshot.selected, revision,
                            if cycle.Some? then Cycle(cycle.value) else Nothing));
    }

    // -------------------------------------------------------------- what a load goes through

    method Finish(k: nat)
      requires k < |running|
      modifies this`running
      ensures running == old(running)[k := old(running)[k].(phase := Finished)]
    {
      running := running[k := running[k].(phase := Finished)];
    }

    method OnList(k: nat, ids: set<string>, default: Option<string>)
      requires k < |running| && running[k].phase.Listing?
      modifies this
      ensures Now() == Next(trim, old(Now()), ListComes(k, ids, default))
    {
      var load := running[k];
      if load.generation != generation {
        discarded := discarded + 1;
        Finish(k);
        return;
      }
      var wanted := load.request.preferred;
      var chosen := if wanted.Some? && wanted.value != "" && wanted.value in ids then wanted else default;
      var next := Snapshot(load.name, Listed(load.previous, ids), chosen, false);
      var cycleToLoad := chosen;
      if !load.request.wish.Preferred? {
        cycleToLoad := WishedCycle(load.request.wish);
        if cycleToLoad.Some? && cycleToLoad.value !in ids { cycleToLoad := None; }
      }
      if cycleToLoad.Some? && cycleToLoad.value != "" {
        running := running[k := load.(phase := Detailing(next, cycleToLoad.value))];
      } else {
        snapshot, loading := next, false;
        Finish(k);
      }
    }

    method OnDetails(k: nat)
      requires Enabled(Now(), DetailsCome(k))
      modifies this
      ensures Now() == Next(trim, old(Now()), DetailsCome(k))
    {
      var load := running[k];
      if load.generation != generation {
        discarded := discarded + 1;
        Finish(k);
        return;
      }
      var next := load.phase.next;
      snapshot := next.(details := next.details[load.phase.id := load.name.value]);
      loading := false;
      Finish(k);
    }

    method Record(k: nat) returns (queued: Option<Request>)
      requires k < |running|
      modifies this
      ensures Now() == Recorded(old(Now()), k) && queued == old(loadQueued)
    {
      var load := running[k];
      running := Without(running, k);
      if load.request.revision.Some? {
        lastRevision, lastRevisionCycleId := load.request.revision, WishedCycle(load.request.wish);
        recordedBy := Some(load);
      }
      loadInFlight := false;
      queued := loadQueued;
      loadQueued := None;
    }

    method OnLoadEnd(k: nat)
      requires k < |running| && running[k].phase.Finished?
      modifies this
      ensures Now() == Next(trim, old(Now()), LoadEnds(k))
    {
      hide Begun, Normal, Recorded;
      var queued := Record(k);
      if queued.Some? && !(&& queued.value.revision.Some? && queued.value.revision == lastRevision
                           && WishedCycle(queued.value.wish) == lastRevisionCycleId
                           && queued.value.subject == snapshot.subject) {
        LoadNow(queued.value);
      }
    }

    // -------------------------------------------------------------- selections

    method SelectCycle(id: string)
      modifies this
      ensures Now() == Next(trim, old(Now()), SelectCalled(id))
      ensures generation == old(generation) && running == old(running) && snapshot.details == old(snapshot.details)
    {
      if id == "" || snapshot.subject.None? { return; }
      if id in snapshot.details {
        snapshot := snapshot.(selected := Some(id));
      } else {
        selections := selections + [Selection(snapshot.subject.value, id, generation)];
      }
    }

    method OnSelection(k: nat)
      requires k < |selections|
      modifies this
      ensures Now() == Next(trim, old(Now()), SelectionComes(k))
      ensures old(selections)[k].generation != generation ==> snapshot == old(snapshot)
      ensures snapshot.subject == old(snapshot.subject) && running == old(running)
    {
      var x := selections[k];
      selections := Without(selections, k);
      if x.generation != generation { return; }
      snapshot := snapshot.(details := snapshot.details[x.id := x.subject]);
      snapshot := snapshot.(selected := Some(x.id));
    }
  }
}
