/**
 The inspector controller as a state machine: one load at a time, one queued request, and cycle
 selections that race with loads. Requests, results and events come in any order. Cycle and round
 details are always fetched and stored together, so one map stands for both; it keeps, for each id, the
 subject the details were fetched for.
 */
module Inspector {

  import opened Prelude

  datatype Snapshot = Snapshot(subject: Option<string>, details: map<string, string>, selected: Option<string>,
                               stale: bool)

  /** Whose details to load: those of the selected cycle, none, or those of the event's cycle. */
  datatype Wish = Preferred | Nothing | Cycle(id: string)

  datatype Request = Request(subject: Option<string>, preferred: Option<string>, revision: Option<int>, wish: Wish)

  datatype Phase = Listing | Detailing(next: Snapshot, id: string) | Finished

  /** A running `loadNow`. */
  datatype Load = Load(request: Request, name: Option<string>, generation: nat, previous: map<string, string>,
                       phase: Phase)

  /** A `selectCycle` that waits for details. */
  datatype Selection = Selection(subject: string, id: string, generation: nat)

  /** `accepted` is the last request that was not dropped as a duplicate when it came; `executed` are
      all requests that were loaded, `recordedBy` is the load whose revision was recorded last, and
      `discarded` counts results the generation guard threw away. */
  datatype State = State(
    snapshot: Snapshot, loading: bool, generation: nat,
    lastRevision: Option<int>, lastCycle: Option<string>,
    inFlight: bool, queued: Option<Request>, running: seq<Load>, selections: seq<Selection>,
    accepted: Option<Request>, executed: seq<Request>, recordedBy: Option<Load>, discarded: nat)

  function Empty(subject: Option<string>): Snapshot
  {
    Snapshot(subject, map[], None, false)
  }

  const INITIAL := State(Empty(None), false, 0, None, None, false, None, [], [], None, [], None, 0)

  /** The trimmed name of a subject, if anything is left of it. */
  function Normal(trim: string -> string, subject: Option<string>): Option<string>
  {
    if subject.None? || trim(subject.value) == "" then None else Some(trim(subject.value))
  }

  // ---------------------------------------------------------------- loads

  function WishedCycle(wish: Wish): Option<string>
  {
    if wish.Cycle? then Some(wish.id) else None
  }

  predicate Repeats(s: State, request: Request)
  {
    && request.revision.Some? && request.revision == s.lastRevision
    && WishedCycle(request.wish) == s.lastCycle && request.subject == s.snapshot.subject
  }

  function Preference(request: Request, snapshot: Snapshot): Option<string>
  {
    if request.preferred.Some? then request.preferred else snapshot.selected
  }

  /** `loadNow` up to its first await. */
  function Begun(trim: string -> string, s: State, request: Request): State
  {
    var name := Normal(trim, request.subject);
    var s' := s.(generation := s.generation + 1, inFlight := true, executed := s.executed + [request]);
    if name.None? then
      s'.(snapshot := Empty(None), loading := false, lastRevision := None,
          running := s.running + [Load(request, None, s'.generation, map[], Finished)])
    else
      var previous := if s.snapshot.subject == name then s.snapshot.details else map[];
      s'.(loading := true,
          snapshot := s.snapshot.(subject := name, stale := false,
                                  selected := Preference(request, s.snapshot)),
          running := s.running + [Load(request, name, s'.generation, previous, Listing)])
  }

  /** `loadCoalesced` up to its first await. A request for the preferred details is never dropped. */
  function Requested(trim: string -> string, s: State, request: Request): State
  {
    if Repeats(s, request) && !request.wish.Preferred? then s
    else if s.inFlight then s.(queued := Some(request), accepted := Some(request))
    else Begun(trim, s.(accepted := Some(request)), request)
  }

  function Without<T>(xs: seq<T>, k: nat): seq<T>
    requires k < |xs|
  {
    xs[..k] + xs[k + 1..]
  }

  function Answered(s: State, k: nat, next: Snapshot): State
    requires k < |s.running|
  {
    s.(snapshot := next, loading := false, running := s.running[k := s.running[k].(phase := Finished)])
  }

  function Discarded(s: State, k: nat): State
    requires k < |s.running|
  {
    s.(discarded := s.discarded + 1, running := s.running[k := s.running[k].(phase := Finished)])
  }

  function Listed(previous: map<string, string>, ids: set<string>): map<string, string>
  {
    map id | id in previous && id in ids :: previous[id]
  }

  /** The list arrives, without ids if it could not be fetched; `default` is the cycle picked from it. */
  function ListArrived(s: State, k: nat, ids: set<string>, default: Option<string>): State
    requires k < |s.running|
  {
    var load := s.running[k];
    if load.generation != s.generation then Discarded(s, k)
    else
      var chosen := if load.request.preferred.Some? && load.request.preferred.value in ids - {""}
                    then load.request.preferred else default;
      var next := Snapshot(load.name, Listed(load.previous, ids), chosen, false);
      var wanted := match load.request.wish
        case Preferred => chosen
        case Nothing => None
        case Cycle(id) => if id in ids then Some(id) else None;
      if wanted.Some? && wanted.value != "" then
        s.(running := s.running[k := load.(phase := Detailing(next, wanted.value))])
      else Answered(s, k, next)
  }

  function DetailsArrived(s: State, k: nat): State
    requires k < |s.running| && s.running[k].phase.Detailing? && s.running[k].name.Some?
  {
    var load := s.running[k];
    if load.generation != s.generation then Discarded(s, k)
    else
      var next := load.phase.next;
      Answered(s, k, next.(details := next.details[load.phase.id := load.name.value]))
  }

  function Recorded(s: State, k: nat): State
    requires k < |s.running|
  {
    var request := s.running[k].request;
    var s' := s.(inFlight := false, running := Without(s.running, k), queued := None);
    if request.revision.None? then s'
    else s'.(lastRevision := request.revision, lastCycle := WishedCycle(request.wish), recordedBy := Some(s.running[k]))
  }

  /** The rest of `loadCoalesced`: the queued request is loaded unless it repeats what was loaded. */
  function Ended(trim: string -> string, s: State, k: nat): State
    requires k < |s.running|
  {
    var s' := Recorded(s, k);
    if s.queued.None? || Repeats(s', s.queued.value) then s' else Begun(trim, s', s.queued.value)
  }

  // ---------------------------------------------------------------- selections

  function Selected(s: State, id: string): State
  {
    if id == "" || s.snapshot.subject.None? then s
    else if id in s.snapshot.details then s.(snapshot := s.snapshot.(selected := Some(id)))
    else s.(selections := s.selections + [Selection(s.snapshot.subject.value, id, s.generation)])
  }

  function SelectionArrived(s: State, k: nat): State
    requires k < |s.selections|
  {
    var x := s.selections[k];
    var s' := s.(selections := Without(s.selections, k));
    if x.generation != s.generation then s'
    else s'.(snapshot := s.snapshot.(details := s.snapshot.details[x.id := x.subject], selected := Some(x.id)))
  }

  // ---------------------------------------------------------------- steps

  /** `EventComes` is an event that concerns the snapshot's subject and asks for a refresh. */
  datatype Step =
    | LoadCalled(subject: Option<string>, preferred: Option<string>)
    | EventComes(cycle: Option<string>, revision: Option<int>)
    | StaleComes
    | SelectCalled(id: string)
    | ListComes(load: nat, ids: set<string>, default: Option<string>)
    | DetailsCome(load: nat)
    | LoadEnds(load: nat)
    | SelectionComes(selection: nat)

  predicate Enabled(s: State, step: Step)
  {
    match step
    case EventComes(_, _) => s.snapshot.subject.Some?
    case StaleComes => s.snapshot.subject.Some?
    case ListComes(k, _, _) => k < |s.running| && s.running[k].phase.Listing?
    case DetailsCome(k) => k < |s.running| && s.running[k].phase.Detailing? && s.running[k].name.Some?
    case LoadEnds(k) => k < |s.running| && s.running[k].phase.Finished?
    case SelectionComes(k) => k < |s.selections|
    case _ => true
  }

  function EventRequest(s: State, cycle: Option<string>, revision: Option<int>): Request
  {
    Request(s.snapshot.subject, if cycle.Some? then cycle else s.snapshot.selected, revision,
            if cycle.Some? then Cycle(cycle.value) else Nothing)
  }

  function Next(trim: string -> string, s: State, step: Step): State
  {
    if !Enabled(s, step) then s
    else
      match step
      case LoadCalled(subject, preferred) =>
        Requested(trim, s.(lastRevision := None, lastCycle := None), Request(subject, preferred, None, Preferred))
      case EventComes(cycle, revision) => Requested(trim, s, EventRequest(s, cycle, revision))
      case StaleComes => s.(snapshot := s.snapshot.(stale := true))
      case SelectCalled(id) => Selected(s, id)
      case ListComes(k, ids, default) => ListArrived(s, k, ids, default)
      case DetailsCome(k) => DetailsArrived(s, k)
      case LoadEnds(k) => Ended(trim, s, k)
      case SelectionComes(k) => SelectionArrived(s, k)
  }

  function Run(trim: string -> string, steps: seq<Step>): State
  {
    if steps == [] then INITIAL else Next(trim, Run(trim, steps[..|steps| - 1]), steps[|steps| - 1])
  }

  // ---------------------------------------------------------------- invariants

  /** The details were all fetched for this subject. */
  ghost predicate Of(details: map<string, string>, subject: Option<string>)
  {
    forall id :: id in details ==> Some(details[id]) == subject
  }

  ghost predicate LoadOk(trim: string -> string, s: State, load: Load)
  {
    && load.generation == s.generation
    && load.name == Normal(trim, load.request.subject) && s.snapshot.subject == load.name
    && Of(load.previous, load.name)
    && (s.queued.None? ==> s.accepted == Some(load.request))
    && match load.phase
       case Listing => load.name.Some?
       case Detailing(next, _) => load.name.Some? && next.subject == load.name && Of(next.details, load.name)
       case Finished => Of(s.snapshot.details, s.snapshot.subject)
  }

  ghost predicate IdleOk(trim: string -> string, s: State)
  {
    && s.queued.None? && Of(s.snapshot.details, s.snapshot.subject)
    && s.snapshot.subject == (if s.accepted.None? then None else Normal(trim, s.accepted.value.subject))
  }

  ghost predicate Inv(trim: string -> string, s: State)
  {
    && |s.running| == (if s.inFlight then 1 else 0)
    && s.discarded == 0
    && (s.inFlight ==> LoadOk(trim, s, s.running[0]))
    && (!s.inFlight ==> IdleOk(trim, s))
    && (s.queued.Some? ==> s.accepted == s.queued)
    && (s.snapshot.subject.Some? ==> Normal(trim, s.snapshot.subject) == s.snapshot.subject)
    && (forall x :: x in s.selections && x.generation == s.generation ==> s.snapshot.subject == Some(x.subject))
    && (forall x :: x in s.selections ==> x.generation <= s.generation)
  }

  ghost predicate Idempotent(trim: string -> string)
  {
    forall x :: trim(trim(x)) == trim(x)
  }

  lemma BegunKeeps(trim: string -> string, s: State, request: Request)
    requires Idempotent(trim) && s.running == [] && s.discarded == 0 && s.queued.None?
    requires s.accepted == Some(request) && Of(s.snapshot.details, s.snapshot.subject)
    requires forall x :: x in s.selections ==> x.generation <= s.generation
    ensures Inv(trim, Begun(trim, s, request))
  {
    if request.subject.Some? { assert trim(trim(request.subject.value)) == trim(request.subject.value); }
  }

  lemma RequestedKeeps(trim: string -> string, s: State, request: Request)
    requires Idempotent(trim) && Inv(trim, s)
    ensures Inv(trim, Requested(trim, s, request))
  {
    if !s.inFlight {
      BegunKeeps(trim, s.(accepted := Some(request)), request);
    }
  }

  lemma ListArrivedKeeps(trim: string -> string, s: State, k: nat, ids: set<string>, default: Option<string>)
    requires Inv(trim, s) && k < |s.running| && s.running[k].phase.Listing?
    ensures Inv(trim, ListArrived(s, k, ids, default))
  {
  }

  lemma DetailsArrivedKeeps(trim: string -> string, s: State, k: nat)
    requires Inv(trim, s) && k < |s.running| && s.running[k].phase.Detailing? && s.running[k].name.Some?
    ensures Inv(trim, DetailsArrived(s, k))
  {
  }

  lemma EndedKeeps(trim: string -> string, s: State, k: nat)
    requires Idempotent(trim) && Inv(trim, s) && k < |s.running| && s.running[k].phase.Finished?
    ensures Inv(trim, Ended(trim, s, k))
  {
    var s' := Recorded(s, k);
    if s.queued.Some? && !Repeats(s', s.queued.value) {
      BegunKeeps(trim, s', s.queued.value);
    }
  }

  lemma SelectionKeeps(trim: string -> string, s: State, k: nat)
    requires Inv(trim, s) && k < |s.selections|
    ensures Inv(trim, SelectionArrived(s, k))
  {
    var x := s.selections[k];
    forall y | y in Without(s.selections, k) ensures y in s.selections {}
  }

  lemma NextKeeps(trim: string -> string, s: State, step: Step)
    requires Idempotent(trim) && Inv(trim, s)
    ensures Inv(trim, Next(trim, s, step))
  {
    if Enabled(s, step) {
      hide Requested, ListArrived, DetailsArrived, Ended, SelectionArrived;
      match step
      case LoadCalled(subject, preferred) =>
        RequestedKeeps(trim, s.(lastRevision := None, lastCycle := None), Request(subject, preferred, None, Preferred));
      case EventComes(cycle, revision) => RequestedKeeps(trim, s, EventRequest(s, cycle, revision));
      case StaleComes =>
      case SelectCalled(id) =>
      case ListComes(k, ids, default) => ListArrivedKeeps(trim, s, k, ids, default);
      case DetailsCome(k) => DetailsArrivedKeeps(trim, s, k);
      case LoadEnds(k) => EndedKeeps(trim, s, k);
      case SelectionComes(k) => SelectionKeeps(trim, s, k);
    }
  }

  lemma {:induction false} RunKeeps(trim: string -> string, steps: seq<Step>)
    requires Idempotent(trim)
    ensures Inv(trim, Run(trim, steps))
  {
    hide Next;
    if steps != [] {
      RunKeeps(trim, steps[..|steps| - 1]);
      NextKeeps(trim, Run(trim, steps[..|steps| - 1]), steps[|steps| - 1]);
    }
  }

  // ---------------------------------------------------------------- what holds in every run

  /** Loads never overlap, so the generation guard has nothing to throw away. */
  lemma LoadsNeverOverlap(trim: string -> string, steps: seq<Step>)
    requires Idempotent(trim)
    ensures var s := Run(trim, steps);
            |s.running| <= 1 && s.discarded == 0 && (s.inFlight <==> |s.running| == 1)
  {
    hide Run;
    RunKeeps(trim, steps);
  }

  /** When nothing is loading, the snapshot shows the subject of the last accepted request, and all
      details in it were fetched for that subject, however selections and loads raced. */
  lemma IdleIsConsistent(trim: string -> string, steps: seq<Step>)
    requires Idempotent(trim) && !Run(trim, steps).inFlight
    ensures var s := Run(trim, steps);
            && Of(s.snapshot.details, s.snapshot.subject)
            && (s.accepted.Some? ==> s.snapshot.subject == Normal(trim, s.accepted.value.subject))
  {
    hide Run;
    RunKeeps(trim, steps);
  }

  function RequestedAll(trim: string -> string, s: State, requests: seq<Request>): State
  {
    if requests == [] then s
    else Requested(trim, RequestedAll(trim, s, requests[..|requests| - 1]), requests[|requests| - 1])
  }

  /** Requests that come during a load start nothing, however many: the last that is no repetition
      waits, the others are forgotten. */
  lemma {:induction false} BurstCollapses(trim: string -> string, s: State, requests: seq<Request>)
    requires Inv(trim, s) && s.inFlight
    ensures var s' := RequestedAll(trim, s, requests);
            && s' == s.(queued := s'.queued, accepted := s'.accepted)
            && (s'.queued == s.queued || (s'.queued.Some? && s'.queued.value in requests))
            && (requests != [] && !Repeats(s, requests[|requests| - 1]) ==> s'.queued == Some(requests[|requests| - 1]))
  {
    if requests != [] { BurstCollapses(trim, s, requests[..|requests| - 1]); }
  }

  /** The end of a load runs exactly the last accepted request, if one is waiting and still news. */
  lemma LastAcceptedRuns(trim: string -> string, s: State)
    requires Idempotent(trim) && Inv(trim, s) && s.inFlight && s.running[0].phase.Finished?
    ensures var s' := Next(trim, s, LoadEnds(0));
            if s.queued.None? then !s'.inFlight && s'.executed == s.executed
            else if s'.inFlight then s'.executed == s.executed + [s.accepted.value]
            else s'.executed == s.executed && s'.snapshot.subject == Normal(trim, s.accepted.value.subject)
  {
    EndedKeeps(trim, s, 0);
  }

  // ---------------------------------------------------------------- when a switch survives

  function RunFrom(trim: string -> string, s: State, steps: seq<Step>): State
  {
    if steps == [] then s else Next(trim, RunFrom(trim, s, steps[..|steps| - 1]), steps[|steps| - 1])
  }

  /** Whether a waiting switch to `subject` is still what waits after these steps: no event has asked for
      a refresh since, and no `load` for another subject, unless `load` has asked for it again. */
  predicate Kept(trim: string -> string, subject: string, during: seq<Step>)
  {
    if during == [] then true
    else
      match during[|during| - 1]
      case LoadCalled(other, _) => Normal(trim, other) == Normal(trim, Some(subject))
      case EventComes(_, _) => false
      case _ => Kept(trim, subject, during[..|during| - 1])
  }

  /** A load is under way, and a request for `subject` waits if and only if `kept`. */
  ghost predicate Waits(trim: string -> string, s: State, shown: Option<string>, subject: string, kept: bool)
  {
    && Inv(trim, s) && s.inFlight && s.lastRevision.None? && s.snapshot.subject == shown && s.queued.Some?
    && (Normal(trim, s.queued.value.subject) == Normal(trim, Some(subject)) <==> kept)
  }

  lemma WaitsOn(trim: string -> string, s: State, shown: Option<string>, subject: string, kept: bool, step: Step)
    requires Idempotent(trim) && Waits(trim, s, shown, subject, kept)
    requires shown.Some? && shown != Normal(trim, Some(subject)) && !step.LoadEnds?
    ensures var kept' := match step
                         case LoadCalled(other, _) => Normal(trim, other) == Normal(trim, Some(subject))
                         case EventComes(_, _) => false
                         case _ => kept;
            Waits(trim, Next(trim, s, step), shown, subject, kept')
  {
    NextKeeps(trim, s, step);
  }

  lemma {:induction false} WaitsThrough(trim: string -> string, s: State, subject: string, during: seq<Step>)
    requires Idempotent(trim) && Waits(trim, s, s.snapshot.subject, subject, true)
    requires s.snapshot.subject.Some? && s.snapshot.subject != Normal(trim, Some(subject))
    requires forall step :: step in during ==> !step.LoadEnds?
    ensures Waits(trim, RunFrom(trim, s, during), s.snapshot.subject, subject, Kept(trim, subject, during))
  {
    hide Waits, Next;
    if during != [] {
      var n := |during| - 1;
      WaitsThrough(trim, s, subject, during[..n]);
      WaitsOn(trim, RunFrom(trim, s, during[..n]), s.snapshot.subject, subject, Kept(trim, subject, during[..n]),
              during[n]);
    }
  }

  /** A switch of subject that is asked for during a load happens when that load ends if and only if no
      event, and no `load` of yet another subject, asks for a refresh in the meantime. */
  lemma SwitchSurvives(trim: string -> string, s: State, subject: string, preferred: Option<string>, during: seq<Step>)
    requires Idempotent(trim) && Inv(trim, s) && s.inFlight
    requires s.snapshot.subject.Some? && s.snapshot.subject != Normal(trim, Some(subject))
    requires forall step :: step in during ==> !step.LoadEnds?
    ensures var s' := RunFrom(trim, Next(trim, s, LoadCalled(Some(subject), preferred)), during);
            && |s'.running| == 1
            && (s'.running[0].phase.Finished? ==>
                  (Next(trim, s', LoadEnds(0)).snapshot.subject == Normal(trim, Some(subject))
                   <==> Kept(trim, subject, during)))
  {
    var s1 := Next(trim, s, LoadCalled(Some(subject), preferred));
    NextKeeps(trim, s, LoadCalled(Some(subject), preferred));
    WaitsThrough(trim, s1, subject, during);
    var s' := RunFrom(trim, s1, during);
    hide RunFrom, Kept;
    if s'.running[0].phase.Finished? { LastAcceptedRuns(trim, s'); EndedShows(trim, s'); }
  }

  lemma EndedShows(trim: string -> string, s: State)
    requires Idempotent(trim) && Inv(trim, s) && s.inFlight && s.running[0].phase.Finished? && s.queued.Some?
    ensures Next(trim, s, LoadEnds(0)).snapshot.subject == Normal(trim, s.queued.value.subject)
  {
    EndedKeeps(trim, s, 0);
  }

  /** In particular an event that asks for a refresh during the load is enough to lose the switch. */
  lemma SwitchIsLost(trim: string -> string, s: State, subject: string, preferred: Option<string>,
                     cycle: Option<string>, revision: Option<int>)
    requires Inv(trim, s) && s.inFlight && s.snapshot.subject.Some?
    ensures var s1 := Next(trim, s, LoadCalled(Some(subject), preferred));
            var s2 := Next(trim, s1, EventComes(cycle, revision));
            && s1.queued.Some? && s1.queued.value.subject == Some(subject)
            && s2.queued.Some? && s2.queued.value.subject == s.snapshot.subject
            && s2.accepted == s2.queued && s2.executed == s.executed
  {
  }

  // ---------------------------------------------------------------- whose revision is on record

  /** The load whose revision was recorded last was overtaken: when it ended a request for another
      subject was waiting, and since then there was no `load` and no end of a load with a revision. */
  predicate Overtaken(trim: string -> string, steps: seq<Step>)
  {
    if steps == [] then false
    else
      var before, s, step := Overtaken(trim, steps[..|steps| - 1]), Run(trim, steps[..|steps| - 1]), steps[|steps| - 1];
      match step
      case LoadCalled(_, _) => false
      case LoadEnds(k) =>
        if !Enabled(s, step) || s.running[k].request.revision.None? then before
        else s.queued.Some? && Normal(trim, s.queued.value.subject) != s.running[k].name
      case _ => before
  }

  /** The record is that of a load with that revision and cycle; its subject is the one that is shown
      unless it was `overtaken`. */
  ghost predicate RecordOk(trim: string -> string, s: State, overtaken: bool)
  {
    && (s.lastRevision.Some? ==>
          && s.recordedBy.Some? && s.recordedBy.value.request.revision == s.lastRevision
          && WishedCycle(s.recordedBy.value.request.wish) == s.lastCycle
          && (s.recordedBy.value.name == s.snapshot.subject <==> !overtaken))
    && (s.queued.Some? && s.queued.value.revision.Some? ==> s.queued.value.subject == s.snapshot.subject)
    && (s.queued.Some? && s.lastRevision.Some? ==> s.queued.value.subject == s.snapshot.subject)
  }

  lemma BegunRecord(trim: string -> string, s: State, request: Request, overtaken: bool)
    requires s.queued.None?
    requires s.lastRevision.Some? ==>
               && s.recordedBy.Some? && s.recordedBy.value.request.revision == s.lastRevision
               && WishedCycle(s.recordedBy.value.request.wish) == s.lastCycle
               && (Normal(trim, request.subject).Some? ==>
                     (s.recordedBy.value.name == Normal(trim, request.subject) <==> !overtaken))
    ensures RecordOk(trim, Begun(trim, s, request), overtaken)
  {
    hide Normal;
  }

  lemma RequestRecord(trim: string -> string, s: State, request: Request, overtaken: bool)
    requires Inv(trim, s) && RecordOk(trim, s, overtaken)
    requires s.lastRevision.Some? || request.revision.Some? ==>
               request.subject == s.snapshot.subject && request.subject.Some?
    ensures RecordOk(trim, Requested(trim, s, request), overtaken)
  {
    if !s.inFlight {
      BegunRecord(trim, s.(accepted := Some(request)), request, overtaken);
    }
    hide Begun, Normal;
  }

  lemma EndRecord(trim: string -> string, s: State, k: nat, overtaken: bool)
    requires Inv(trim, s) && RecordOk(trim, s, overtaken) && k < |s.running| && s.running[k].phase.Finished?
    ensures var overtaken' := if s.running[k].request.revision.None? then overtaken
                              else s.queued.Some? && Normal(trim, s.queued.value.subject) != s.running[k].name;
            RecordOk(trim, Ended(trim, s, k), overtaken')
  {
    var overtaken' := if s.running[k].request.revision.None? then overtaken
                      else s.queued.Some? && Normal(trim, s.queued.value.subject) != s.running[k].name;
    var s' := Recorded(s, k);
    assert LoadOk(trim, s, s.running[0]);
    if s.queued.Some? && !Repeats(s', s.queued.value) {
      BegunRecord(trim, s', s.queued.value, overtaken');
    }
    hide Begun, Normal;
  }

  lemma RecordKept(trim: string -> string, s: State, step: Step, overtaken: bool)
    requires Inv(trim, s) && RecordOk(trim, s, overtaken)
    ensures var overtaken' := match step
              case LoadCalled(_, _) => false
              case LoadEnds(k) =>
                if !Enabled(s, step) || s.running[k].request.revision.None? then overtaken
                else s.queued.Some? && Normal(trim, s.queued.value.subject) != s.running[k].name
              case _ => overtaken;
            RecordOk(trim, Next(trim, s, step), overtaken')
  {
    hide Requested, Ended, Normal, LoadOk, IdleOk;
    if Enabled(s, step) {
      match step
      case LoadCalled(subject, preferred) =>
        var s0 := s.(lastRevision := None, lastCycle := None);
        ResetKeeps(trim, s, overtaken);
        RequestRecord(trim, s0, Request(subject, preferred, None, Preferred), false);
      case EventComes(cycle, revision) => RequestRecord(trim, s, EventRequest(s, cycle, revision), overtaken);
      case LoadEnds(k) => EndRecord(trim, s, k, overtaken);
      case ListComes(k, ids, default) => OthersRecord(trim, s, step, overtaken);
      case DetailsCome(k) => OthersRecord(trim, s, step, overtaken);
      case _ =>
    }
  }

  lemma ResetKeeps(trim: string -> string, s: State, overtaken: bool)
    requires Inv(trim, s) && RecordOk(trim, s, overtaken)
    ensures var s0 := s.(lastRevision := None, lastCycle := None); Inv(trim, s0) && RecordOk(trim, s0, false)
  {
  }

  /** The answers that a load waits for do not touch the record. */
  lemma OthersRecord(trim: string -> string, s: State, step: Step, overtaken: bool)
    requires Inv(trim, s) && RecordOk(trim, s, overtaken)
    requires Enabled(s, step) && (step.ListComes? || step.DetailsCome?)
    ensures RecordOk(trim, Next(trim, s, step), overtaken)
  {
    hide Normal, Listed;
  }

  lemma {:induction false} RunRecords(trim: string -> string, steps: seq<Step>)
    requires Idempotent(trim)
    ensures RecordOk(trim, Run(trim, steps), Overtaken(trim, steps))
  {
    hide Next, RecordOk;
    if steps == [] {
      NothingRecorded(trim);
    } else {
      RunKeeps(trim, steps[..|steps| - 1]);
      RunRecords(trim, steps[..|steps| - 1]);
      RecordKept(trim, Run(trim, steps[..|steps| - 1]), steps[|steps| - 1], Overtaken(trim, steps[..|steps| - 1]));
    }
  }

  lemma NothingRecorded(trim: string -> string)
    ensures RecordOk(trim, INITIAL, false)
  {
  }

  /** In every run, an event that is dropped as a repetition repeats the revision and the cycle of the
      load on record, and that was a load of the event's subject if and only if it was not overtaken. */
  lemma DroppedExactly(trim: string -> string, steps: seq<Step>, cycle: Option<string>, revision: Option<int>)
    requires Idempotent(trim)
    requires var s := Run(trim, steps); s.snapshot.subject.Some? && Repeats(s, EventRequest(s, cycle, revision))
    ensures var s := Run(trim, steps);
            && Next(trim, s, EventComes(cycle, revision)) == s
            && s.recordedBy.Some? && s.recordedBy.value.request.revision == revision
            && WishedCycle(s.recordedBy.value.request.wish) == cycle
            && (s.recordedBy.value.name == s.snapshot.subject <==> !Overtaken(trim, steps))
  {
    RunRecords(trim, steps);
    hide Run, Overtaken;
  }

  lemma ListNothing(s: State, load: Load)
    requires s.running == [load] && load.generation == s.generation
    ensures var s' := ListArrived(s, 0, {}, None);
            && |s'.running| == 1 && s'.running[0] == load.(phase := s'.running[0].phase)
            && (load.request.wish.Preferred? ==>
                  s' == s.(running := s'.running, snapshot := s'.snapshot, loading := false)
                  && s'.running[0].phase.Finished? && s'.snapshot.subject == load.name)
  {
  }

  /** The revision of a load that ends after a switch was asked for stays on record, so that an event of
      the new subject with that revision and cycle is dropped, though nothing was loaded for it. */
  lemma RevisionOutlivesSwitch(trim: string -> string, s: State, subject: string, revision: int, cycle: Option<string>)
    requires s.inFlight && |s.running| == 1 && s.running[0].phase.Finished?
    requires s.running[0].request.revision == Some(revision) && WishedCycle(s.running[0].request.wish) == cycle
    requires trim(subject) == subject != ""
    ensures var s1 := Next(trim, s, LoadCalled(Some(subject), None));
            var s2 := Next(trim, s1, LoadEnds(0));
            var s3 := Next(trim, s2, ListComes(0, {}, None));
            var s4 := Next(trim, s3, LoadEnds(0));
            && !s4.inFlight && s4.snapshot.subject == Some(subject)
            && Next(trim, s4, EventComes(cycle, Some(revision))) == s4
  {
    hide ListArrived, Listed;
    var s1 := Next(trim, s, LoadCalled(Some(subject), None));
    var s2 := Next(trim, s1, LoadEnds(0));
    assert s2.running == [Load(s1.queued.value, Some(subject), s.generation + 1, s2.running[0].previous, Listing)];
    assert s2.lastRevision == Some(revision) && s2.lastCycle == cycle;
    var s3 := Next(trim, s2, ListComes(0, {}, None));
    ListNothing(s2, s2.running[0]);
    assert s3.running[0].phase.Finished? && s3.snapshot.subject == Some(subject);
    var s4 := Next(trim, s3, LoadEnds(0));
    assert s4.lastRevision == Some(revision) && s4.lastCycle == cycle;
  }
}
