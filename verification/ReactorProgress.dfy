/**
 The reactor progress snapshot: how the product layer sanitizes it, and which scheduler state is
 displayed.
 */
module ReactorProgress {

  import opened Prelude
  import opened Json
  import opened Whitespace

  datatype Lane = Realtime | Replay

  datatype Counts = Counts(ready: nat, claimed: nat, deferred: nat, blocked: nat, handled: nat, open: nat)

  datatype Reactor = Reactor(name: string, realtime: Counts, replay: Counts)

  datatype Task = Task(id: string, kind: Option<string>, lane: Option<Lane>)

  datatype Claim = Claim(claimId: Option<string>, reactor: Option<string>, lane: Option<Lane>)

  datatype Batch = Batch(batchId: Option<string>, candidateId: Option<string>)

  datatype Activity = Activity(
    stage: Option<string>, lastProgress: Option<string>, task: Option<Task>, claim: Option<Claim>, batch: Option<Batch>)

  datatype Limits = Limits(batch: Option<nat>, wallClock: Option<nat>, tokens: Option<nat>, spend: Option<nat>)

  datatype Stop = Stop(category: string, code: string, detail: Option<string>)

  datatype Freshness = Freshness(asOf: string, status: string, staleAfter: Option<nat>, reason: Option<string>)

  datatype Liveness = Liveness(alive: bool, heartbeat: Option<string>)

  datatype Evidence = Evidence(envelopes: Option<nat>)

  datatype Progress = Progress(
    schema: string, subject: Option<string>, generation: Json, projectedAt: string, freshness: Freshness,
    liveness: Liveness, reactors: seq<Reactor>, overlap: string, activity: Option<Activity>, limits: Option<Limits>,
    stop: Option<Stop>, scheduler: Option<string>, evidence: Option<Evidence>)

  // ---------------------------------------------------------------- the checks

  predicate FreshnessStatus(s: string)
  {
    s in ["fresh", "stale", "reconciling", "degraded", "unknown"]
  }

  predicate SchedulerState(s: string)
  {
    s in ["listening", "queued", "running", "catching_up", "paused_budget", "blocked", "waiting_approval", "stalled"]
  }

  function Count(v: Json): Option<nat>
  {
    if v.Number? && v.n >= 0.0 && v.n == v.n.Floor as real then Some(v.n.Floor) else None
  }

  /** `String(value || '')` where that names a lane. */
  function LaneOf(v: Json): Option<Lane>
  {
    var text := if Falsy(v) then "" else StringOf(v);
    if text == "realtime" then Some(Realtime)
    else if text == "replay" then Some(Replay)
    else None
  }

  /** An array that holds the name of a lane names it too. */
  lemma ArrayNamesLane(lane: Lane)
    ensures LaneOf(Arr([LaneOr(Some(lane))])) == Some(lane)
  {
    assert Joined([LaneOr(Some(lane))]) == StringOf(LaneOr(Some(lane)));
  }

  function AdaptLane(v: Json): Option<Counts>
  {
    var ready, claimed, deferred := Count(Get(v, "ready")), Count(Get(v, "claimed")), Count(Get(v, "deferred"));
    var blocked, handled, open := Count(Get(v, "blocked")), Count(Get(v, "handled_total")), Count(Get(v, "open_total"));
    if ready.None? || claimed.None? || deferred.None? || blocked.None? || handled.None? then None
    else
      Some(Counts(ready.value, claimed.value, deferred.value, blocked.value, handled.value,
                  if open.Some? then open.value else ready.value + claimed.value + deferred.value + blocked.value))
  }

  function AdaptReactor(f: Field): Option<Reactor>
  {
    var realtime, replay := AdaptLane(Get(f.value, "realtime")), AdaptLane(Get(f.value, "replay"));
    if realtime.None? || replay.None? then None else Some(Reactor(f.name, realtime.value, replay.value))
  }

  function AdaptReactors(fields: seq<Field>): seq<Reactor>
  {
    if fields == [] then []
    else
      var rest, last := AdaptReactors(fields[..|fields| - 1]), AdaptReactor(fields[|fields| - 1]);
      if last.None? then rest else rest + [last.value]
  }

  method CollectReactors(v: Json) returns (reactors: seq<Reactor>)
    ensures reactors == ReactorsOf(v)
  {
    reactors := [];
    if !v.Obj? { return; }
    for i := 0 to |v.fields|
      invariant reactors == AdaptReactors(v.fields[..i])
    {
      assert v.fields[..i + 1][..i] == v.fields[..i];
      var reactor := AdaptReactor(v.fields[i]);
      if reactor.None? { continue; }
      reactors := reactors + [reactor.value];
    }
    assert v.fields[..|v.fields|] == v.fields;
  }

  function ReactorsOf(v: Json): seq<Reactor>
  {
    if v.Obj? then AdaptReactors(v.fields) else []
  }

  function TaskOf(v: Json): Option<Task>
  {
    var id := Text(Get(v, "id"));
    if id.None? then None else Some(Task(id.value, Text(Get(v, "type")), LaneOf(Get(v, "lane"))))
  }

  function ClaimOf(v: Json): Option<Claim>
  {
    if !v.Obj? then None
    else Some(Claim(Text(Get(v, "claim_id")), Text(Get(v, "reactor")), LaneOf(Get(v, "lane"))))
  }

  function BatchOf(v: Json): Option<Batch>
  {
    if !v.Obj? then None else Some(Batch(Text(Get(v, "batch_id")), Text(Get(v, "candidate_id"))))
  }

  function ActivityOf(v: Json): Option<Activity>
  {
    if !v.Obj? then None
    else
      Some(Activity(Text(Get(v, "current_stage")), Text(Get(v, "last_progress_at")), TaskOf(Get(v, "current_task")),
                    ClaimOf(Get(v, "current_claim")), BatchOf(Get(v, "current_batch"))))
  }

  function LimitsOf(v: Json): Option<Limits>
  {
    if !v.Obj? then None
    else
      Some(Limits(Count(Get(v, "replay_batch_limit")), Count(Get(v, "replay_wall_clock_ms")),
                  Count(Get(v, "token_reserve")), Count(Get(v, "spend_allowance"))))
  }

  function StopOf(v: Json): Option<Stop>
  {
    var category, code := Text(Get(v, "class")), Text(Get(v, "code"));
    if category.None? || code.None? then None else Some(Stop(category.value, code.value, Text(Get(v, "detail"))))
  }

  function FreshnessOf(now: string, v: Json): Option<Freshness>
  {
    var status := Text(Get(v, "status"));
    if status.None? || !FreshnessStatus(status.value) then None
    else
      Some(Freshness(Or(Text(Get(v, "as_of")), now), status.value, Count(Get(v, "stale_after_ms")),
                     Text(Get(v, "reason"))))
  }

  function LivenessOf(v: Json): Option<Liveness>
  {
    if !Get(v, "alive").Bool? then None else Some(Liveness(Get(v, "alive").b, Text(Get(v, "heartbeat_at"))))
  }

  function SchedulerOf(v: Json): Option<string>
  {
    if Text(v).Some? && SchedulerState(Text(v).value) then Text(v) else None
  }

  function EvidenceOf(v: Json): Option<Evidence>
  {
    if !v.Obj? then None else Some(Evidence(Count(Get(v, "envelope_count"))))
  }

  const OVERLAP := "reactor_counts_may_overlap_authoritative_evidence"

  function Sanitized(now: string, v: Json): Option<Progress>
  {
    var schema, generation := Text(Get(v, "schema_version")), Get(v, "projection_generation");
    var freshness, liveness := FreshnessOf(now, Get(v, "freshness")), LivenessOf(Get(v, "worker_liveness"));
    if schema.None? || generation.Undefined? || generation.Null? || freshness.None? || liveness.None? then None
    else
      Some(Progress(schema.value, Text(Get(v, "subject")), generation, Or(Text(Get(v, "projected_at")), now),
                    freshness.value, liveness.value, ReactorsOf(Get(v, "reactors")),
                    Or(Text(Get(Get(v, "reactor_overlap"), "note")), OVERLAP), ActivityOf(Get(v, "activity")),
                    LimitsOf(Get(v, "limits")), StopOf(Get(v, "stop_reason")), SchedulerOf(Get(v, "scheduler_state")),
                    EvidenceOf(Get(v, "evidence_authority"))))
  }

  // ---------------------------------------------------------------- the values they are sent as

  function CountOr(n: Option<nat>): Json
  {
    if n.None? then Undefined else Number(n.value as real)
  }

  function LaneOr(lane: Option<Lane>): Json
  {
    match lane
    case None => Undefined
    case Some(Realtime) => Str("realtime")
    case Some(Replay) => Str("replay")
  }

  function EncodeCounts(c: Counts): Json
  {
    Obj([Field("ready", Number(c.ready as real)), Field("claimed", Number(c.claimed as real)),
         Field("deferred", Number(c.deferred as real)), Field("blocked", Number(c.blocked as real)),
         Field("handled_total", Number(c.handled as real)), Field("open_total", Number(c.open as real))])
  }

  function EncodeReactor(r: Reactor): Field
  {
    Field(r.name, Obj([Field("realtime", EncodeCounts(r.realtime)), Field("replay", EncodeCounts(r.replay))]))
  }

  function EncodeReactors(reactors: seq<Reactor>): (fields: seq<Field>)
    ensures |fields| == |reactors|
  {
    seq(|reactors|, i requires 0 <= i < |reactors| => EncodeReactor(reactors[i]))
  }

  function EncodeTask(t: Option<Task>): Json
  {
    match t
    case None => Undefined
    case Some(task) =>
      Obj([Field("id", Str(task.id)), Field("type", OrUndefined(task.kind)), Field("lane", LaneOr(task.lane))])
  }

  function EncodeClaim(c: Option<Claim>): Json
  {
    match c
    case None => Undefined
    case Some(claim) =>
      Obj([Field("claim_id", OrUndefined(claim.claimId)), Field("reactor", OrUndefined(claim.reactor)),
           Field("lane", LaneOr(claim.lane))])
  }

  function EncodeBatch(b: Option<Batch>): Json
  {
    match b
    case None => Undefined
    case Some(batch) =>
      Obj([Field("batch_id", OrUndefined(batch.batchId)), Field("candidate_id", OrUndefined(batch.candidateId))])
  }

  function EncodeActivity(a: Option<Activity>): Json
  {
    match a
    case None => Undefined
    case Some(activity) =>
      Obj([Field("current_stage", OrUndefined(activity.stage)),
           Field("last_progress_at", OrUndefined(activity.lastProgress)),
           Field("current_task", EncodeTask(activity.task)), Field("current_claim", EncodeClaim(activity.claim)),
           Field("current_batch", EncodeBatch(activity.batch))])
  }

  function EncodeLimits(l: Option<Limits>): Json
  {
    match l
    case None => Undefined
    case Some(limits) =>
      Obj([Field("replay_batch_limit", CountOr(limits.batch)), Field("replay_wall_clock_ms", CountOr(limits.wallClock)),
           Field("token_reserve", CountOr(limits.tokens)), Field("spend_allowance", CountOr(limits.spend))])
  }

  function EncodeStop(s: Option<Stop>): Json
  {
    match s
    case None => Undefined
    case Some(stop) =>
      Obj([Field("class", Str(stop.category)), Field("code", Str(stop.code)),
           Field("detail", OrUndefined(stop.detail))])
  }

  function EncodeFreshness(f: Freshness): Json
  {
    Obj([Field("as_of", Str(f.asOf)), Field("status", Str(f.status)), Field("stale_after_ms", CountOr(f.staleAfter)),
         Field("reason", OrUndefined(f.reason))])
  }

  function EncodeLiveness(l: Liveness): Json
  {
    Obj([Field("alive", Bool(l.alive)), Field("heartbeat_at", OrUndefined(l.heartbeat))])
  }

  function EncodeOverlap(note: string): Json
  {
    Obj([Field("additive", Bool(false)), Field("note", Str(note))])
  }

  function EncodeEvidence(e: Option<Evidence>): Json
  {
    match e
    case None => Undefined
    case Some(evidence) =>
      Obj([Field("envelope_count", CountOr(evidence.envelopes)), Field("is_work_count", Bool(false))])
  }

  function Front(p: Progress): seq<Field>
  {
    [Field("schema_version", Str(p.schema)), Field("subject", OrNull(p.subject)),
     Field("projection_generation", p.generation), Field("projected_at", Str(p.projectedAt)),
     Field("freshness", EncodeFreshness(p.freshness)), Field("worker_liveness", EncodeLiveness(p.liveness)),
     Field("reactors", Obj(EncodeReactors(p.reactors))), Field("reactor_overlap", EncodeOverlap(p.overlap)),
     Field("activity", EncodeActivity(p.activity)), Field("limits", EncodeLimits(p.limits)),
     Field("stop_reason", EncodeStop(p.stop)), Field("scheduler_state", OrUndefined(p.scheduler)),
     Field("evidence_authority", EncodeEvidence(p.evidence))]
  }

  /** The fields of a progress, followed by `more`. */
  function EncodeWith(p: Progress, more: seq<Field>): Json
  {
    Obj(Front(p) + more)
  }

  function Encode(p: Progress): Json
  {
    EncodeWith(p, [])
  }

  // ---------------------------------------------------------------- each part, sanitized again

  predicate Solid(s: string)
  {
    Trim(s) != ""
  }

  predicate SolidOption(s: Option<string>)
  {
    s.Some? ==> Solid(s.value)
  }

  lemma TextAgain(s: Option<string>)
    requires SolidOption(s)
    ensures Text(OrUndefined(s)) == s && Text(OrNull(s)) == s
  {
  }

  lemma CountAgain(n: Option<nat>)
    ensures Count(CountOr(n)) == n
  {
  }

  lemma LaneAgain(lane: Option<Lane>)
    ensures LaneOf(LaneOr(lane)) == lane
  {
  }

  lemma CountsAgain(c: Counts)
    ensures AdaptLane(EncodeCounts(c)) == Some(c)
  {
    var fields := EncodeCounts(c).fields;
    FieldAt(fields, 0);
    FieldAt(fields, 1);
    FieldAt(fields, 2);
    FieldAt(fields, 3);
    FieldAt(fields, 4);
    FieldAt(fields, 5);
    CountAgain(Some(c.ready));
    CountAgain(Some(c.claimed));
    CountAgain(Some(c.deferred));
    CountAgain(Some(c.blocked));
    CountAgain(Some(c.handled));
    CountAgain(Some(c.open));
  }

  lemma {:induction false} ReactorsAgain(reactors: seq<Reactor>)
    ensures AdaptReactors(EncodeReactors(reactors)) == reactors
  {
    hide AdaptLane, EncodeCounts;
    if reactors != [] {
      var n := |reactors| - 1;
      ReactorsAgain(reactors[..n]);
      assert EncodeReactors(reactors)[..n] == EncodeReactors(reactors[..n]);
      CountsAgain(reactors[n].realtime);
      CountsAgain(reactors[n].replay);
      var fields := EncodeReactor(reactors[n]).value.fields;
      FieldAt(fields, 0);
      FieldAt(fields, 1);
      assert reactors == reactors[..n] + [reactors[n]];
    }
  }

  lemma TaskAgain(v: Json)
    ensures TaskOf(EncodeTask(TaskOf(v))) == TaskOf(v)
  {
    hide Trim, LaneOf, LaneOr;
    if TaskOf(v).Some? {
      var t := TaskOf(v).value;
      var fields := EncodeTask(Some(t)).fields;
      FieldAt(fields, 0);
      FieldAt(fields, 1);
      FieldAt(fields, 2);
      LaneAgain(t.lane);
    }
  }

  lemma ClaimAgain(v: Json)
    ensures ClaimOf(EncodeClaim(ClaimOf(v))) == ClaimOf(v)
  {
    hide Trim, LaneOf, LaneOr;
    if ClaimOf(v).Some? {
      var fields := EncodeClaim(ClaimOf(v)).fields;
      FieldAt(fields, 0);
      FieldAt(fields, 1);
      FieldAt(fields, 2);
      LaneAgain(ClaimOf(v).value.lane);
    }
  }

  lemma BatchAgain(v: Json)
    ensures BatchOf(EncodeBatch(BatchOf(v))) == BatchOf(v)
  {
    hide Trim;
    if BatchOf(v).Some? {
      var fields := EncodeBatch(BatchOf(v)).fields;
      FieldAt(fields, 0);
      FieldAt(fields, 1);
    }
  }

  lemma ActivityAgain(v: Json)
    ensures ActivityOf(EncodeActivity(ActivityOf(v))) == ActivityOf(v)
  {
    hide Trim, TaskOf, ClaimOf, BatchOf, EncodeTask, EncodeClaim, EncodeBatch;
    if ActivityOf(v).Some? {
      var fields := EncodeActivity(ActivityOf(v)).fields;
      FieldAt(fields, 0);
      FieldAt(fields, 1);
      FieldAt(fields, 2);
      FieldAt(fields, 3);
      FieldAt(fields, 4);
      TaskAgain(Get(v, "current_task"));
      ClaimAgain(Get(v, "current_claim"));
      BatchAgain(Get(v, "current_batch"));
    }
  }

  lemma LimitsAgain(v: Json)
    ensures LimitsOf(EncodeLimits(LimitsOf(v))) == LimitsOf(v)
  {
    hide Count, CountOr;
    if LimitsOf(v).Some? {
      var l := LimitsOf(v).value;
      var fields := EncodeLimits(Some(l)).fields;
      FieldAt(fields, 0);
      FieldAt(fields, 1);
      FieldAt(fields, 2);
      FieldAt(fields, 3);
      CountAgain(l.batch);
      CountAgain(l.wallClock);
      CountAgain(l.tokens);
      CountAgain(l.spend);
    }
  }

  lemma StopAgain(v: Json)
    ensures StopOf(EncodeStop(StopOf(v))) == StopOf(v)
  {
    hide Trim;
    if StopOf(v).Some? {
      var fields := EncodeStop(StopOf(v)).fields;
      FieldAt(fields, 0);
      FieldAt(fields, 1);
      FieldAt(fields, 2);
    }
  }

  lemma FreshnessAgain(now: string, later: string, v: Json)
    requires Solid(now)
    ensures var f := FreshnessOf(now, v); f.Some? ==> FreshnessOf(later, EncodeFreshness(f.value)) == f
  {
    hide Trim, Count, CountOr, FreshnessStatus;
    var f := FreshnessOf(now, v);
    if f.Some? {
      var fields := EncodeFreshness(f.value).fields;
      FieldAt(fields, 0);
      FieldAt(fields, 1);
      FieldAt(fields, 2);
      FieldAt(fields, 3);
      CountAgain(f.value.staleAfter);
    }
  }

  lemma LivenessAgain(v: Json)
    ensures var l := LivenessOf(v); l.Some? ==> LivenessOf(EncodeLiveness(l.value)) == l
  {
    hide Trim;
    if LivenessOf(v).Some? {
      var fields := EncodeLiveness(LivenessOf(v).value).fields;
      FieldAt(fields, 0);
      FieldAt(fields, 1);
    }
  }

  lemma EvidenceAgain(v: Json)
    ensures EvidenceOf(EncodeEvidence(EvidenceOf(v))) == EvidenceOf(v)
  {
    hide Count, CountOr;
    if EvidenceOf(v).Some? {
      FieldAt(EncodeEvidence(EvidenceOf(v)).fields, 0);
      CountAgain(EvidenceOf(v).value.envelopes);
    }
  }

  lemma OverlapAgain(v: Json)
    ensures var note := Or(Text(Get(v, "note")), OVERLAP);
            Or(Text(Get(EncodeOverlap(note), "note")), OVERLAP) == note
  {
    hide Trim;
    FieldAt(EncodeOverlap(Or(Text(Get(v, "note")), OVERLAP)).fields, 1);
  }

  // ---------------------------------------------------------------- the whole, sanitized again

  lemma FirstFields(p: Progress, more: seq<Field>)
    ensures var v := EncodeWith(p, more);
            && Get(v, "schema_version") == Str(p.schema) && Get(v, "subject") == OrNull(p.subject)
            && Get(v, "projection_generation") == p.generation && Get(v, "projected_at") == Str(p.projectedAt)
  {
    hide EncodeFreshness, EncodeLiveness, EncodeReactors, EncodeOverlap, EncodeActivity, EncodeLimits, EncodeStop,
      EncodeEvidence;
    var front := Front(p);
    FieldAtFront(front, more, 0);
    FieldAtFront(front, more, 1);
    FieldAtFront(front, more, 2);
    FieldAtFront(front, more, 3);
  }

  lemma HealthFields(p: Progress, more: seq<Field>)
    ensures var v := EncodeWith(p, more);
            && Get(v, "freshness") == EncodeFreshness(p.freshness)
            && Get(v, "worker_liveness") == EncodeLiveness(p.liveness)
  {
    hide EncodeFreshness, EncodeLiveness, EncodeReactors, EncodeOverlap, EncodeActivity, EncodeLimits, EncodeStop,
      EncodeEvidence;
    var front := Front(p);
    FieldAtFront(front, more, 4);
    FieldAtFront(front, more, 5);
  }

  lemma MiddleFields(p: Progress, more: seq<Field>)
    ensures var v := EncodeWith(p, more);
            && Get(v, "reactors") == Obj(EncodeReactors(p.reactors))
            && Get(v, "reactor_overlap") == EncodeOverlap(p.overlap)
            && Get(v, "activity") == EncodeActivity(p.activity) && Get(v, "limits") == EncodeLimits(p.limits)
  {
    hide EncodeFreshness, EncodeLiveness, EncodeReactors, EncodeOverlap, EncodeActivity, EncodeLimits, EncodeStop,
      EncodeEvidence;
    var front := Front(p);
    FieldAtFront(front, more, 6);
    FieldAtFront(front, more, 7);
    FieldAtFront(front, more, 8);
    FieldAtFront(front, more, 9);
  }

  lemma LastFields(p: Progress, more: seq<Field>)
    ensures var v := EncodeWith(p, more);
            && Get(v, "stop_reason") == EncodeStop(p.stop) && Get(v, "scheduler_state") == OrUndefined(p.scheduler)
            && Get(v, "evidence_authority") == EncodeEvidence(p.evidence)
  {
    hide EncodeFreshness, EncodeLiveness, EncodeReactors, EncodeOverlap, EncodeActivity, EncodeLimits, EncodeStop,
      EncodeEvidence;
    var front := Front(p);
    FieldAtFront(front, more, 10);
    FieldAtFront(front, more, 11);
    FieldAtFront(front, more, 12);
  }

  lemma HealthAgain(now: string, later: string, v: Json, p: Progress, more: seq<Field>)
    requires Solid(now) && Sanitized(now, v) == Some(p)
    ensures var e := EncodeWith(p, more);
            && FreshnessOf(later, Get(e, "freshness")) == Some(p.freshness)
            && LivenessOf(Get(e, "worker_liveness")) == Some(p.liveness)
  {
    hide FreshnessOf, LivenessOf, EncodeWith, EncodeFreshness, EncodeLiveness, Get, Text, ReactorsOf, ActivityOf,
      LimitsOf, StopOf, SchedulerOf, EvidenceOf, Solid, Or;
    HealthFields(p, more);
    FreshnessAgain(now, later, Get(v, "freshness"));
    LivenessAgain(Get(v, "worker_liveness"));
  }

  lemma HeadAgain(now: string, later: string, v: Json, p: Progress, more: seq<Field>)
    requires Solid(now) && Sanitized(now, v) == Some(p)
    ensures var e := EncodeWith(p, more);
            && Text(Get(e, "schema_version")) == Some(p.schema) && Text(Get(e, "subject")) == p.subject
            && Get(e, "projection_generation") == p.generation && !p.generation.Undefined? && !p.generation.Null?
            && Or(Text(Get(e, "projected_at")), later) == p.projectedAt
  {
    hide FreshnessOf, LivenessOf, EncodeWith, Trim, Get, ReactorsOf, ActivityOf, LimitsOf, StopOf, SchedulerOf,
      EvidenceOf;
    FirstFields(p, more);
  }

  lemma MiddleAgain(now: string, v: Json, p: Progress, more: seq<Field>)
    requires Sanitized(now, v) == Some(p)
    ensures var e := EncodeWith(p, more);
            && ReactorsOf(Get(e, "reactors")) == p.reactors
            && Or(Text(Get(Get(e, "reactor_overlap"), "note")), OVERLAP) == p.overlap
            && ActivityOf(Get(e, "activity")) == p.activity && LimitsOf(Get(e, "limits")) == p.limits
  {
    hide FreshnessOf, LivenessOf, EncodeWith, EncodeActivity, EncodeLimits, EncodeOverlap, EncodeReactors,
      AdaptReactors, Text, Get, ActivityOf, LimitsOf, StopOf, SchedulerOf, EvidenceOf, Or;
    MiddleFields(p, more);
    ReactorsAgain(p.reactors);
    OverlapAgain(Get(v, "reactor_overlap"));
    ActivityAgain(Get(v, "activity"));
    LimitsAgain(Get(v, "limits"));
  }

  lemma TailAgain(now: string, v: Json, p: Progress, more: seq<Field>)
    requires Sanitized(now, v) == Some(p)
    ensures var e := EncodeWith(p, more);
            && StopOf(Get(e, "stop_reason")) == p.stop && SchedulerOf(Get(e, "scheduler_state")) == p.scheduler
            && EvidenceOf(Get(e, "evidence_authority")) == p.evidence
  {
    hide FreshnessOf, LivenessOf, EncodeWith, EncodeStop, EncodeEvidence, Trim, Get, ReactorsOf, ActivityOf, LimitsOf,
      StopOf, EvidenceOf, SchedulerState, Or;
    LastFields(p, more);
    StopAgain(Get(v, "stop_reason"));
    EvidenceAgain(Get(v, "evidence_authority"));
  }

  /** What was sanitized, sent with any further fields after its own and sanitized at any later time, is
      unchanged. */
  lemma SanitizedAgain(now: string, later: string, v: Json, more: seq<Field>)
    requires Solid(now)
    ensures var p := Sanitized(now, v);
            p.Some? ==> Sanitized(later, EncodeWith(p.value, more)) == p
  {
    hide FreshnessOf, LivenessOf, EncodeWith, Text, Get, ReactorsOf, ActivityOf, LimitsOf, StopOf, EvidenceOf,
      SchedulerOf, Or, Solid;
    if Sanitized(now, v).Some? {
      var p := Sanitized(now, v).value;
      HeadAgain(now, later, v, p, more);
      HealthAgain(now, later, v, p, more);
      MiddleAgain(now, v, p, more);
      TailAgain(now, v, p, more);
    }
  }

  lemma SanitizingIsIdempotent(now: string, later: string, v: Json)
    requires Solid(now)
    ensures var p := Sanitized(now, v); p.Some? ==> Sanitized(later, Encode(p.value)) == p
  {
    hide Sanitized, EncodeWith;
    SanitizedAgain(now, later, v, []);
  }

  // ---------------------------------------------------------------- the state that is displayed

  function Sum(reactors: seq<Reactor>, pick: Reactor -> nat): nat
  {
    if reactors == [] then 0 else Sum(reactors[..|reactors| - 1], pick) + pick(reactors[|reactors| - 1])
  }

  method SumLane(reactors: seq<Reactor>, pick: Reactor -> nat) returns (total: nat)
    ensures total == Sum(reactors, pick)
    ensures total > 0 <==> exists r :: r in reactors && pick(r) > 0
  {
    total := 0;
    for i := 0 to |reactors|
      invariant total == Sum(reactors[..i], pick)
      invariant total > 0 <==> exists k :: 0 <= k < i && pick(reactors[k]) > 0
    {
      assert reactors[..i + 1][..i] == reactors[..i];
      total := total + pick(reactors[i]);
    }
    assert reactors[..|reactors|] == reactors;
  }

  predicate Contains(s: string, part: string)
  {
    part <= s || (s != "" && Contains(s[1..], part))
  }

  predicate OverBudget(stop: Stop)
  {
    stop.category == "paused_budget" || Contains(stop.code, "budget")
  }

  function Fallback(p: Option<Progress>): string
  {
    if p.None? then "listening"
    else if p.value.stop.Some? && OverBudget(p.value.stop.value) then "paused_budget"
    else if p.value.stop.Some? then "blocked"
    else if Sum(p.value.reactors, (r: Reactor) => r.realtime.ready) > 0 then "queued"
    else if Sum(p.value.reactors, (r: Reactor) => r.replay.ready) > 0 then "queued"
    else "listening"
  }

  predicate ReplayIsActive(p: Progress)
  {
    && p.activity.Some?
    && ((p.activity.value.task.Some? && p.activity.value.task.value.lane == Some(Replay))
        || (p.activity.value.claim.Some? && p.activity.value.claim.value.lane == Some(Replay)))
  }

  /** Catching up counts only with replay work at hand and progress on record; a heartbeat does not. */
  predicate CatchesUp(p: Progress)
  {
    && p.scheduler == Some("catching_up") && ReplayIsActive(p)
    && p.activity.value.lastProgress.Some? && Solid(p.activity.value.lastProgress.value)
  }

  function Display(p: Option<Progress>, paused: bool): string
  {
    if paused then "paused"
    else if p.Some? && p.value.scheduler == Some("catching_up") then
      if CatchesUp(p.value) then "catching_up" else Fallback(p)
    else if p.Some? && p.value.scheduler.Some? && SchedulerState(p.value.scheduler.value) then p.value.scheduler.value
    else Fallback(p)
  }

  // ---------------------------------------------------------------- when each state is displayed

  lemma {:induction false} SumIsPositive(reactors: seq<Reactor>, pick: Reactor -> nat)
    ensures Sum(reactors, pick) > 0 <==> exists r :: r in reactors && pick(r) > 0
  {
    if reactors != [] {
      var n := |reactors| - 1;
      SumIsPositive(reactors[..n], pick);
      assert reactors == reactors[..n] + [reactors[n]];
    }
  }

  ghost predicate Within(s: string, part: string, i: int)
  {
    0 <= i <= |s| - |part| && s[i..i + |part|] == part
  }

  lemma WithinShifts(s: string, part: string, i: nat)
    requires s != ""
    ensures Within(s[1..], part, i) <==> Within(s, part, i + 1)
  {
    if i <= |s| - 1 - |part| { assert s[1..][i..i + |part|] == s[i + 1..i + 1 + |part|]; }
  }

  lemma WithinAtStart(s: string, part: string)
    ensures part <= s <==> Within(s, part, 0)
  {
  }

  lemma {:induction false} ContainsIs(s: string, part: string)
    ensures Contains(s, part) <==> exists i :: Within(s, part, i)
  {
    hide Within;
    WithinAtStart(s, part);
    if !(part <= s) && s != "" {
      ContainsIs(s[1..], part);
      NowhereNegative(s, part);
      NowhereNegative(s[1..], part);
      if i :| Within(s[1..], part, i) { WithinShifts(s, part, i); }
      if i :| Within(s, part, i) { WithinShifts(s, part, i - 1); }
    } else if !(part <= s) {
      NowhereInNothing(part);
    }
  }

  lemma NowhereNegative(s: string, part: string)
    ensures forall i :: Within(s, part, i) ==> i >= 0
  {
  }

  lemma NowhereInNothing(part: string)
    ensures (exists i :: Within("", part, i)) <==> part == ""
  {
    if part == "" { assert Within("", part, 0); }
  }

  /** A stop for want of budget, by its class or by its code. */
  ghost predicate StopsForBudget(stop: Stop)
  {
    stop.category == "paused_budget" || exists i :: Within(stop.code, "budget", i)
  }

  ghost predicate HasReadyWork(reactors: seq<Reactor>)
  {
    exists r :: r in reactors && (r.realtime.ready > 0 || r.replay.ready > 0)
  }

  /** Replay work at hand, as a task or a claim, and progress on record. */
  ghost predicate ShowsReplay(p: Progress)
  {
    && p.activity.Some?
    && ((exists t :: p.activity.value.task == Some(t) && t.lane == Some(Replay))
        || (exists c :: p.activity.value.claim == Some(c) && c.lane == Some(Replay)))
    && exists at :: p.activity.value.lastProgress == Some(at) && Trim(at) != ""
  }

  /** The snapshot's own state is not to be shown: there is none, it is unknown, or it claims to catch up
      without showing replay work. */
  ghost predicate FallsBack(p: Option<Progress>)
  {
    || p.None? || p.value.scheduler.None? || !SchedulerState(p.value.scheduler.value)
    || (p.value.scheduler.value == "catching_up" && !ShowsReplay(p.value))
  }

  lemma FallbackIs(p: Option<Progress>)
    ensures Fallback(p) == "paused_budget" <==> p.Some? && p.value.stop.Some? && StopsForBudget(p.value.stop.value)
    ensures Fallback(p) == "blocked" <==> p.Some? && p.value.stop.Some? && !StopsForBudget(p.value.stop.value)
    ensures Fallback(p) == "queued" <==> p.Some? && p.value.stop.None? && HasReadyWork(p.value.reactors)
    ensures Fallback(p) == "listening" <==> p.None? || (p.value.stop.None? && !HasReadyWork(p.value.reactors))
  {
    if p.Some? {
      SumIsPositive(p.value.reactors, (r: Reactor) => r.realtime.ready);
      SumIsPositive(p.value.reactors, (r: Reactor) => r.replay.ready);
      if p.value.stop.Some? { ContainsIs(p.value.stop.value.code, "budget"); }
    }
    hide Sum, Contains, Within;
  }

  lemma CatchesUpIs(p: Progress)
    ensures CatchesUp(p) <==> p.scheduler == Some("catching_up") && ShowsReplay(p)
  {
  }

  /** `catching_up` is displayed exactly when automation is not paused, the snapshot says so, a replay task
      or claim is at hand and progress is on record. */
  lemma CatchingUpIsTruthful(p: Option<Progress>, paused: bool)
    ensures Display(p, paused) == "catching_up" <==>
            !paused && p.Some? && p.value.scheduler == Some("catching_up") && ShowsReplay(p.value)
  {
    if p.Some? { CatchesUpIs(p.value); }
    hide Sum, Contains, Trim;
    assert Fallback(p) != "catching_up";
  }

  /** Every other state is displayed exactly when the snapshot names it, or when it falls back to it: for
      want of budget, for another stop, for ready work, or for nothing of the kind. */
  lemma StateIsDisplayed(p: Option<Progress>, paused: bool, state: string)
    requires state != "catching_up" && state != "paused"
    ensures Display(p, paused) == state <==>
            && !paused
            && ((p.Some? && p.value.scheduler == Some(state) && SchedulerState(state))
                || (FallsBack(p) &&
                    ((state == "paused_budget" && p.Some? && p.value.stop.Some? && StopsForBudget(p.value.stop.value))
                     || (state == "blocked" && p.Some? && p.value.stop.Some? && !StopsForBudget(p.value.stop.value))
                     || (state == "queued" && p.Some? && p.value.stop.None? && HasReadyWork(p.value.reactors))
                     || (state == "listening"
                         && (p.None? || (p.value.stop.None? && !HasReadyWork(p.value.reactors)))))))
  {
    FallbackIs(p);
    FallbackIsOne(p);
    if p.Some? { CatchesUpIs(p.value); }
    hide Fallback, CatchesUp, ShowsReplay, StopsForBudget, HasReadyWork;
  }

  lemma FallbackIsOne(p: Option<Progress>)
    ensures Fallback(p) in ["paused_budget", "blocked", "queued", "listening"]
  {
    hide Sum, Contains;
  }

  lemma PausedIsDisplayed(p: Option<Progress>, paused: bool)
    ensures Display(p, paused) == "paused" <==> paused
  {
    FallbackIsOne(p);
    hide Fallback, CatchesUp;
  }

  // ---------------------------------------------------------------- what is accepted

  /** A lane is kept exactly when it has its five counts; the open total is their sum, without what was
      handled, unless the lane says otherwise. */
  lemma LaneIsKept(v: Json)
    ensures AdaptLane(v).Some? <==>
            Count(Get(v, "ready")).Some? && Count(Get(v, "claimed")).Some? && Count(Get(v, "deferred")).Some?
            && Count(Get(v, "blocked")).Some? && Count(Get(v, "handled_total")).Some?
    ensures AdaptLane(v).Some? ==>
              var c := AdaptLane(v).value;
              && Count(Get(v, "ready")) == Some(c.ready) && Count(Get(v, "claimed")) == Some(c.claimed)
              && Count(Get(v, "deferred")) == Some(c.deferred) && Count(Get(v, "blocked")) == Some(c.blocked)
              && Count(Get(v, "handled_total")) == Some(c.handled)
              && (if Count(Get(v, "open_total")).Some? then Count(Get(v, "open_total")) == Some(c.open)
                  else c.open == c.ready + c.claimed + c.deferred + c.blocked)
  {
  }

  /** A count is a whole number that is not negative. */
  lemma CountIs(v: Json, n: nat)
    ensures Count(v) == Some(n) <==> v == Number(n as real)
  {
  }

  /** A snapshot is accepted exactly when it names a schema and a generation, and reports a known
      freshness and whether the worker is alive. */
  lemma AcceptedExactly(now: string, v: Json)
    ensures Sanitized(now, v).Some? <==>
            && Text(Get(v, "schema_version")).Some?
            && Get(v, "projection_generation") != Undefined && Get(v, "projection_generation") != Null
            && Text(Get(Get(v, "freshness"), "status")).Some?
            && Text(Get(Get(v, "freshness"), "status")).value in ["fresh", "stale", "reconciling", "degraded",
                                                                  "unknown"]
            && (Get(Get(v, "worker_liveness"), "alive") == Bool(true) || Get(Get(v, "worker_liveness"),
                                                                             "alive") == Bool(false))
  {
    hide Text, ReactorsOf, ActivityOf, LimitsOf, StopOf, SchedulerOf, EvidenceOf;
  }

  /** The text under a name, or `otherwise` for want of one. */
  ghost predicate TextOr(v: Json, name: string, otherwise: string, field: string)
  {
    if Text(Get(v, name)).Some? then Some(field) == Text(Get(v, name)) else field == otherwise
  }

  ghost predicate NamesLane(v: Json, lane: Option<Lane>)
  {
    var text := if Falsy(v) then "" else StringOf(v);
    && (lane == Some(Realtime) <==> text == "realtime")
    && (lane == Some(Replay) <==> text == "replay")
  }

  /** The parts of a sanitized snapshot that are always there, from the raw value. */
  lemma RequiredFromRaw(now: string, v: Json)
    requires Sanitized(now, v).Some?
    ensures var p, freshness, liveness := Sanitized(now, v).value, Get(v, "freshness"), Get(v, "worker_liveness");
            && Text(Get(v, "schema_version")) == Some(p.schema) && Text(Get(v, "subject")) == p.subject
            && Get(v, "projection_generation") == p.generation && TextOr(v, "projected_at", now, p.projectedAt)
            && TextOr(freshness, "as_of", now, p.freshness.asOf)
            && Text(Get(freshness, "status")) == Some(p.freshness.status)
            && Count(Get(freshness, "stale_after_ms")) == p.freshness.staleAfter
            && Text(Get(freshness, "reason")) == p.freshness.reason
            && Get(liveness, "alive") == Bool(p.liveness.alive)
            && Text(Get(liveness, "heartbeat_at")) == p.liveness.heartbeat
            && TextOr(Get(v, "reactor_overlap"), "note", "reactor_counts_may_overlap_authoritative_evidence", p.overlap)
  {
    hide Text, Count, ReactorsOf, ActivityOf, LimitsOf, StopOf, SchedulerOf, EvidenceOf, FreshnessStatus;
  }

  /** A scheduler state is kept exactly when it is known, and a stop exactly when it has class and code. */
  lemma OptionalFromRaw(now: string, v: Json)
    requires Sanitized(now, v).Some?
    ensures var p, stop := Sanitized(now, v).value, Get(v, "stop_reason");
            && (forall state :: p.scheduler == Some(state) <==>
                  Text(Get(v, "scheduler_state")) == Some(state) && SchedulerState(state))
            && (p.stop.Some? <==> Text(Get(stop, "class")).Some? && Text(Get(stop, "code")).Some?)
            && (p.stop.Some? ==>
                  Text(Get(stop, "class")) == Some(p.stop.value.category)
                  && Text(Get(stop, "code")) == Some(p.stop.value.code)
                      && Text(Get(stop, "detail")) == p.stop.value.detail)
            && (p.activity.Some? <==> Get(v, "activity").Obj?) && (p.limits.Some? <==> Get(v, "limits").Obj?)
            && (p.evidence.Some? <==> Get(v, "evidence_authority").Obj?)
            && (p.evidence.Some? ==>
                  Count(Get(Get(v, "evidence_authority"), "envelope_count")) == p.evidence.value.envelopes)
  {
    hide Text, Count, ReactorsOf, FreshnessOf, LivenessOf, SchedulerState, Or;
  }

  lemma SchedulerStateIs(state: string)
    ensures SchedulerState(state) <==>
            || state == "listening" || state == "queued" || state == "running" || state == "catching_up"
            || state == "paused_budget" || state == "blocked" || state == "waiting_approval" || state == "stalled"
  {
  }

  /** An activity's task is kept exactly when it has an id; task and claim have the lane that they name. */
  lemma ActivityFromRaw(v: Json)
    requires v.Obj?
    ensures ActivityOf(v).Some?
    ensures var a := ActivityOf(v).value;
            var task, claim, batch := Get(v, "current_task"), Get(v, "current_claim"), Get(v, "current_batch");
            && Text(Get(v, "current_stage")) == a.stage && Text(Get(v, "last_progress_at")) == a.lastProgress
            && (a.task.Some? <==> Text(Get(task, "id")).Some?)
            && (a.task.Some? ==>
                  Text(Get(task, "id")) == Some(a.task.value.id) && Text(Get(task, "type")) == a.task.value.kind
                  && NamesLane(Get(task, "lane"), a.task.value.lane))
            && (a.claim.Some? <==> claim.Obj?)
            && (a.claim.Some? ==>
                  Text(Get(claim, "claim_id")) == a.claim.value.claimId
                  && Text(Get(claim, "reactor")) == a.claim.value.reactor
                  && NamesLane(Get(claim, "lane"), a.claim.value.lane))
            && (a.batch.Some? <==> batch.Obj?)
            && (a.batch.Some? ==>
                  Text(Get(batch, "batch_id")) == a.batch.value.batchId
                  && Text(Get(batch, "candidate_id")) == a.batch.value.candidateId)
  {
    hide Text, StringOf, Get;
  }
}
