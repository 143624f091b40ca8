/**
 The client's own adapter of the reactor progress snapshot, written apart from the sanitizer of the
 product layer, and the proof that the two agree.
 */
module ReactorAdapter {

  import opened Prelude
  import opened Json
  import opened Whitespace
  import P = ReactorProgress

  /** The progress, and the two records that the client passes through. */
  datatype Adapted = Adapted(progress: P.Progress, sources: Option<Json>, throughput: Option<Json>)

  const FRESHNESS: set<string> := {"fresh", "stale", "reconciling", "degraded", "unknown"}

  const LANES: map<string, P.Lane> := map["realtime" := P.Realtime, "replay" := P.Replay]

  const SCHEDULER_STATES: set<string> :=
    {"listening", "queued", "running", "catching_up", "paused_budget", "blocked", "waiting_approval", "stalled"}

  // ---------------------------------------------------------------- the adapter

  function AsRecord(v: Json): Option<Json>
  {
    if v.Obj? then Some(v) else None
  }

  function AsString(v: Json): Option<string>
  {
    match v
    case Str(text) => if Trim(text) == "" then None else Some(text)
    case _ => None
  }

  function AsBoolean(v: Json): Option<bool>
  {
    match v
    case Bool(b) => Some(b)
    case _ => None
  }

  function AsCount(v: Json): Option<nat>
  {
    match v
    case Number(n) => if n.Floor as real == n && n >= 0.0 then Some(n.Floor) else None
    case _ => None
  }

  /** `record?.name` */
  function At(record: Option<Json>, name: string): Json
  {
    if record.None? then Undefined else Get(record.value, name)
  }

  function AdaptLane(v: Json): Option<P.Counts>
  {
    var lane := AsRecord(v);
    if lane.None? then None
    else
      var ready, claimed := AsCount(At(lane, "ready")), AsCount(At(lane, "claimed"));
      var deferred, blocked := AsCount(At(lane, "deferred")), AsCount(At(lane, "blocked"));
      var handled, open := AsCount(At(lane, "handled_total")), AsCount(At(lane, "open_total"));
      match (ready, claimed, deferred, blocked, handled)
      case (Some(r), Some(c), Some(d), Some(b), Some(h)) =>
        Some(P.Counts(r, c, d, b, h, if open.None? then r + c + d + b else open.value))
      case _ => None
  }

  function AdaptCounts(f: Field): Option<P.Reactor>
  {
    var lanes := AsRecord(f.value);
    if lanes.None? then None
    else
      match (AdaptLane(At(lanes, "realtime")), AdaptLane(At(lanes, "replay")))
      case (Some(realtime), Some(replay)) => Some(P.Reactor(f.name, realtime, replay))
      case _ => None
  }

  function AdaptEntries(fields: seq<Field>): seq<P.Reactor>
  {
    if fields == [] then []
    else
      match AdaptCounts(fields[0])
      case None => AdaptEntries(fields[1..])
      case Some(reactor) => [reactor] + AdaptEntries(fields[1..])
  }

  function ReactorCounts(v: Json): seq<P.Reactor>
  {
    var reactors := AsRecord(v);
    if reactors.None? then [] else AdaptEntries(reactors.value.fields)
  }

  method AdaptReactorCounts(v: Json) returns (next: seq<P.Reactor>)
    ensures next == ReactorCounts(v)
  {
    next := [];
    var reactors := AsRecord(v);
    if reactors.None? { return; }
    var fields := reactors.value.fields;
    for i := 0 to |fields|
      invariant next + AdaptEntries(fields[i..]) == AdaptEntries(fields)
    {
      assert fields[i..][1..] == fields[i + 1..];
      var lanes := AsRecord(fields[i].value);
      if lanes.None? { continue; }
      var realtime, replay := AdaptLane(At(lanes, "realtime")), AdaptLane(At(lanes, "replay"));
      if realtime.None? || replay.None? { continue; }
      next := next + [P.Reactor(fields[i].name, realtime.value, replay.value)];
    }
  }

  function LaneIn(record: Option<Json>): Option<P.Lane>
  {
    var value := At(record, "lane");
    var name := if Falsy(value) then "" else StringOf(value);
    if name in LANES then Some(LANES[name]) else None
  }

  function AdaptActivity(activity: Option<Json>): P.Activity
  {
    var task := AsRecord(At(activity, "current_task"));
    var claim := AsRecord(At(activity, "current_claim"));
    var batch := AsRecord(At(activity, "current_batch"));
    P.Activity(
      AsString(At(activity, "current_stage")), AsString(At(activity, "last_progress_at")),
      if task.Some? && AsString(At(task, "id")).Some?
      then Some(P.Task(AsString(At(task, "id")).value, AsString(At(task, "type")), LaneIn(task))) else None,
      if claim.Some?
      then Some(P.Claim(AsString(At(claim, "claim_id")), AsString(At(claim, "reactor")), LaneIn(claim))) else None,
      if batch.Some?
      then Some(P.Batch(AsString(At(batch, "batch_id")), AsString(At(batch, "candidate_id")))) else None)
  }

  /** What every accepted snapshot gives; the optional parts follow one by one. */
  function Required(now: string, snapshot: Json, freshness: Json, liveness: Json, status: string,
                    alive: bool): P.Progress
  {
    var overlap := AsRecord(Get(snapshot, "reactor_overlap"));
    P.Progress(
      StringOf(Get(snapshot, "schema_version")), AsString(Get(snapshot, "subject")),
      Get(snapshot, "projection_generation"), Or(AsString(Get(snapshot, "projected_at")), now),
      P.Freshness(Or(AsString(Get(freshness, "as_of")), now), status, AsCount(Get(freshness, "stale_after_ms")),
                  AsString(Get(freshness, "reason"))),
      P.Liveness(alive, AsString(Get(liveness, "heartbeat_at"))),
      ReactorCounts(Get(snapshot, "reactors")),
      Or(AsString(At(overlap, "note")), "reactor_counts_may_overlap_authoritative_evidence"),
      None, None, None, None, None)
  }

  function WithLimits(adapted: P.Progress, limits: Option<Json>): P.Progress
  {
    if limits.None? then adapted
    else
      adapted.(limits := Some(P.Limits(
        AsCount(At(limits, "replay_batch_limit")), AsCount(At(limits, "replay_wall_clock_ms")),
        AsCount(At(limits, "token_reserve")), AsCount(At(limits, "spend_allowance")))))
  }

  function WithStop(adapted: P.Progress, stop: Option<Json>): P.Progress
  {
    if stop.Some? && AsString(At(stop, "class")).Some? && AsString(At(stop, "code")).Some? then
      adapted.(stop := Some(P.Stop(StringOf(At(stop, "class")), StringOf(At(stop, "code")),
                                   AsString(At(stop, "detail")))))
    else adapted
  }

  function Adapt(now: string, v: Json): Option<Adapted>
  {
    var snapshot := AsRecord(v);
    var freshness, liveness := AsRecord(At(snapshot, "freshness")), AsRecord(At(snapshot, "worker_liveness"));
    var status, alive := AsString(At(freshness, "status")), AsBoolean(At(liveness, "alive"));
    var generation := At(snapshot, "projection_generation");
    if snapshot.None? || AsString(At(snapshot, "schema_version")).None? || generation.Null? || generation.Undefined?
       || freshness.None? || liveness.None?
    then None
    else if status.None? || status.value !in FRESHNESS || alive.None? then None
    else
      var activity, scheduler := AsRecord(At(snapshot, "activity")), AsString(At(snapshot, "scheduler_state"));
      var authority := AsRecord(At(snapshot, "evidence_authority"));
      var a0 := Required(now, snapshot.value, freshness.value, liveness.value, status.value, alive.value);
      var a1 := if activity.Some? then a0.(activity := Some(AdaptActivity(activity))) else a0;
      var a2 := WithLimits(a1, AsRecord(At(snapshot, "limits")));
      var a3 := WithStop(a2, AsRecord(At(snapshot, "stop_reason")));
      var a4 := if scheduler.Some? && scheduler.value in SCHEDULER_STATES then a3.(scheduler := scheduler) else a3;
      var evidence := P.Evidence(AsCount(At(authority, "envelope_count")));
      var a5 := if authority.Some? then a4.(evidence := Some(evidence)) else a4;
      Some(Adapted(a5, AsRecord(At(snapshot, "sources")), AsRecord(At(snapshot, "throughput"))))
  }

  // ---------------------------------------------------------------- it agrees with the sanitizer, part by part

  lemma StringsAgree(v: Json)
    ensures AsString(v) == Text(v) && (AsString(v).Some? ==> StringOf(v) == AsString(v).value)
  {
  }

  lemma CountsAgree(v: Json)
    ensures AsCount(v) == P.Count(v)
  {
  }

  lemma LanesAgree(v: Json)
    ensures AdaptLane(v) == P.AdaptLane(v)
  {
    hide AsCount, P.Count;
    CountsAgree(Get(v, "ready"));
    CountsAgree(Get(v, "claimed"));
    CountsAgree(Get(v, "deferred"));
    CountsAgree(Get(v, "blocked"));
    CountsAgree(Get(v, "handled_total"));
    CountsAgree(Get(v, "open_total"));
    CountsAgree(Undefined);
    NothingCounts();
  }

  lemma NothingCounts()
    ensures P.Count(Undefined) == None
  {
  }

  lemma {:induction false} EntriesAppend(fields: seq<Field>, last: Field)
    ensures AdaptEntries(fields + [last]) ==
            AdaptEntries(fields) + (if AdaptCounts(last).Some? then [AdaptCounts(last).value] else [])
  {
    if fields == [] {
      assert fields + [last] == [last] && [last][1..] == [];
    } else {
      EntriesAppend(fields[1..], last);
      assert (fields + [last])[1..] == fields[1..] + [last];
    }
  }

  lemma FieldsAgree(f: Field)
    ensures AdaptCounts(f) == P.AdaptReactor(f)
  {
    LanesAgree(Get(f.value, "realtime"));
    LanesAgree(Get(f.value, "replay"));
    hide AdaptLane, P.AdaptLane;
    NoLanes();
  }

  lemma NoLanes()
    ensures P.AdaptLane(Undefined) == None
  {
  }

  lemma {:induction false} EntriesAgree(fields: seq<Field>)
    ensures AdaptEntries(fields) == P.AdaptReactors(fields)
  {
    hide AdaptCounts, P.AdaptReactor;
    if fields != [] {
      var n := |fields| - 1;
      EntriesAgree(fields[..n]);
      EntriesAppend(fields[..n], fields[n]);
      FieldsAgree(fields[n]);
      assert fields == fields[..n] + [fields[n]];
    }
  }

  lemma LaneNamesAgree(record: Option<Json>)
    ensures LaneIn(record) == P.LaneOf(At(record, "lane"))
  {
  }

  lemma ActivityAgrees(v: Json)
    requires v.Obj?
    ensures P.ActivityOf(v) == Some(AdaptActivity(Some(v)))
  {
    hide AsString, Text, LaneIn, P.LaneOf, StringOf, FieldOf;
    var task, claim, batch := Get(v, "current_task"), Get(v, "current_claim"), Get(v, "current_batch");
    StringsAgree(Get(v, "current_stage"));
    StringsAgree(Get(v, "last_progress_at"));
    StringsAgree(Get(task, "id"));
    StringsAgree(Get(task, "type"));
    StringsAgree(Get(claim, "claim_id"));
    StringsAgree(Get(claim, "reactor"));
    StringsAgree(Get(batch, "batch_id"));
    StringsAgree(Get(batch, "candidate_id"));
    LaneNamesAgree(AsRecord(task));
    LaneNamesAgree(AsRecord(claim));
    NothingIsNoText();
  }

  lemma NothingIsNoText()
    ensures Text(Undefined) == None
  {
  }

  lemma LimitsAgree(p: P.Progress, v: Json)
    requires p.limits.None?
    ensures WithLimits(p, AsRecord(v)) == p.(limits := P.LimitsOf(v))
  {
    hide AsCount, P.Count;
    CountsAgree(Get(v, "replay_batch_limit"));
    CountsAgree(Get(v, "replay_wall_clock_ms"));
    CountsAgree(Get(v, "token_reserve"));
    CountsAgree(Get(v, "spend_allowance"));
  }

  lemma StopsAgree(p: P.Progress, v: Json)
    requires p.stop.None?
    ensures WithStop(p, AsRecord(v)) == p.(stop := P.StopOf(v))
  {
    hide AsString, Text, StringOf;
    StringsAgree(Get(v, "class"));
    StringsAgree(Get(v, "code"));
    StringsAgree(Get(v, "detail"));
    NothingIsNoText();
  }

  /** Both adapters accept a snapshot under the same conditions. */
  lemma AcceptanceAgrees(now: string, v: Json)
    ensures Adapt(now, v).Some? <==> P.Sanitized(now, v).Some?
  {
    hide AsString, Text, StringOf, P.ReactorsOf, P.ActivityOf, P.LimitsOf, P.StopOf, P.SchedulerOf, P.EvidenceOf,
      Required, WithLimits, WithStop, AdaptActivity;
    StringsAgree(Get(v, "schema_version"));
    StringsAgree(Get(Get(v, "freshness"), "status"));
    NothingIsNoText();
  }

  lemma RequiredAgrees(now: string, v: Json, p: P.Progress, status: string, alive: bool)
    requires v.Obj? && P.Sanitized(now, v) == Some(p)
    requires AsString(Get(Get(v, "freshness"), "status")) == Some(status)
    requires Get(Get(v, "worker_liveness"), "alive") == Bool(alive)
    ensures Required(now, v, Get(v, "freshness"), Get(v, "worker_liveness"), status, alive)
            == p.(activity := None, limits := None, stop := None, scheduler := None, evidence := None)
  {
    hide AsString, Text, StringOf, P.ActivityOf, P.LimitsOf, P.StopOf, P.SchedulerOf, P.EvidenceOf, AsCount, P.Count,
      AdaptEntries, P.AdaptReactors, P.FreshnessStatus;
    var freshness, liveness := Get(v, "freshness"), Get(v, "worker_liveness");
    var overlap := Get(v, "reactor_overlap");
    StringsAgree(Get(v, "schema_version"));
    StringsAgree(Get(v, "subject"));
    StringsAgree(Get(v, "projected_at"));
    StringsAgree(Get(freshness, "as_of"));
    StringsAgree(Get(freshness, "status"));
    StringsAgree(Get(freshness, "reason"));
    StringsAgree(Get(liveness, "heartbeat_at"));
    StringsAgree(Get(overlap, "note"));
    CountsAgree(Get(freshness, "stale_after_ms"));
    if Get(v, "reactors").Obj? { EntriesAgree(Get(v, "reactors").fields); }
  }

  /** For every value and every clock the two adapters accept the same and give the same. */
  lemma AdaptersAgree(now: string, v: Json)
    ensures P.Sanitized(now, v) == if Adapt(now, v).None? then None else Some(Adapt(now, v).value.progress)
  {
    AcceptanceAgrees(now, v);
    if P.Sanitized(now, v).Some? {
      var p := P.Sanitized(now, v).value;
      var status := AsString(Get(Get(v, "freshness"), "status")).value;
      RequiredAgrees(now, v, p, status, Get(Get(v, "worker_liveness"), "alive").b);
      var base := p.(activity := None, limits := None, stop := None, scheduler := None, evidence := None);
      var activity := Get(v, "activity");
      if activity.Obj? { ActivityAgrees(activity); }
      var p1 := base.(activity := p.activity);
      LimitsAgree(p1, Get(v, "limits"));
      var p2 := p1.(limits := p.limits);
      StopsAgree(p2, Get(v, "stop_reason"));
      StringsAgree(Get(v, "scheduler_state"));
      CountsAgree(Get(Get(v, "evidence_authority"), "envelope_count"));
      hide Required, WithLimits, WithStop, AdaptActivity, AsString, Text, StringOf, P.ReactorsOf, P.LimitsOf, P.StopOf,
        AsCount, P.Count, P.FreshnessOf, P.LivenessOf;
    }
  }

  // ---------------------------------------------------------------- sanitizing after adapting

  function RecordOr(v: Option<Json>): Json
  {
    if v.None? then Undefined else v.value
  }

  function EncodeAdapted(a: Adapted): Json
  {
    P.EncodeWith(a.progress, [Field("sources", RecordOr(a.sources)), Field("throughput", RecordOr(a.throughput))])
  }

  lemma AddedFields(a: Adapted)
    ensures var v := EncodeAdapted(a);
            Get(v, "sources") == RecordOr(a.sources) && Get(v, "throughput") == RecordOr(a.throughput)
  {
    hide P.EncodeFreshness, P.EncodeLiveness, P.EncodeReactors, P.EncodeOverlap, P.EncodeActivity, P.EncodeLimits,
      P.EncodeStop, P.EncodeEvidence;
    var fields := EncodeAdapted(a).fields;
    FieldAt(fields, 13);
    FieldAt(fields, 14);
  }

  /** Sanitizing what the client has adapted is sanitizing alone, at any later time. */
  lemma SanitizingAfterAdapting(now: string, later: string, v: Json)
    requires P.Solid(now)
    ensures var a := Adapt(now, v); a.Some? ==> P.Sanitized(later, EncodeAdapted(a.value)) == P.Sanitized(now, v)
  {
    hide Adapt, P.Sanitized, P.EncodeWith;
    AdaptersAgree(now, v);
    var a := Adapt(now, v);
    if a.Some? {
      P.SanitizedAgain(now, later, v,
                       [Field("sources", RecordOr(a.value.sources)),
                        Field("throughput", RecordOr(a.value.throughput))]);
    }
  }

  lemma PassedThrough(now: string, v: Json)
    requires Adapt(now, v).Some?
    ensures var a := Adapt(now, v).value;
            a.sources == AsRecord(Get(v, "sources")) && a.throughput == AsRecord(Get(v, "throughput"))
  {
    hide Required, WithLimits, WithStop, AdaptActivity, AsString, AsCount;
  }

  /** Adapting twice is adapting once. */
  lemma AdaptingIsIdempotent(now: string, later: string, v: Json)
    requires P.Solid(now)
    ensures var a := Adapt(now, v); a.Some? ==> Adapt(later, EncodeAdapted(a.value)) == a
  {
    hide Adapt, P.Sanitized, P.EncodeWith;
    var a := Adapt(now, v);
    if a.Some? {
      var again := EncodeAdapted(a.value);
      SanitizingAfterAdapting(now, later, v);
      AdaptersAgree(now, v);
      AdaptersAgree(later, again);
      PassedThrough(now, v);
      PassedThrough(later, again);
      AddedFields(a.value);
    }
  }
}
