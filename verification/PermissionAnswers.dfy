/** What an agent is told about its permission requests, by whom, and which events go with it. */
module PermissionAnswers {

  import opened Prelude
  import opened Permissions
  import opened AcpSessions

  /** The `k`-th choice is the first of the choices with its id. */
  predicate FirstWithId(options: seq<Choice>, k: int, id: string)
  {
    0 <= k < |options| && options[k].id == id && forall j :: 0 <= j < k ==> options[j].id != id
  }

  predicate FirstOfKind(options: seq<Choice>, k: int, kind: string)
  {
    0 <= k < |options| && options[k].kind == kind && forall j :: 0 <= j < k ==> options[j].kind != kind
  }

  lemma {:induction false} WithIdIsFirst(options: seq<Choice>, id: string) returns (k: int)
    ensures WithId(options, id).Some? <==> FirstWithId(options, k, id)
    ensures WithId(options, id).Some? ==> WithId(options, id).value == options[k]
    ensures WithId(options, id).None? ==> forall c :: c in options ==> c.id != id
  {
    k := 0;
    if options != [] && options[0].id != id {
      k := WithIdIsFirst(options[1..], id);
      k := k + 1;
      assert options == [options[0]] + options[1..];
      assert forall j :: 1 <= j < |options| ==> options[j] == options[1..][j - 1];
    }
  }

  lemma {:induction false} OfKindIsFirst(options: seq<Choice>, kind: string) returns (k: int)
    ensures OfKind(options, kind).Some? <==> FirstOfKind(options, k, kind)
    ensures OfKind(options, kind).Some? ==> OfKind(options, kind).value == options[k]
    ensures OfKind(options, kind).None? ==> forall c :: c in options ==> c.kind != kind
  {
    k := 0;
    if options != [] && options[0].kind != kind {
      k := OfKindIsFirst(options[1..], kind);
      k := k + 1;
      assert options == [options[0]] + options[1..];
      assert forall j :: 1 <= j < |options| ==> options[j] == options[1..][j - 1];
    }
  }

  // ---------------------------------------------------------------- the operator's answer

  predicate HasId(options: seq<Choice>, id: string)
  {
    exists c :: c in options && c.id == id
  }

  /** A response is refused for a request that is not pending or not of the session, and otherwise for an
      option that the request does not have. */
  lemma RefusedExactly(b: Broker, session: nat, r: nat, option: string)
    ensures Refused(b, session, r, option) == Some(NotFound) <==>
            r !in b.pending || r >= |b.requests| || b.requests[r].session != session
    ensures Refused(b, session, r, option) == Some(Invalid) <==>
            && r in b.pending && r < |b.requests| && b.requests[r].session == session
            && option != "" && !HasId(b.requests[r].options, option)
  {
    if r < |b.requests| { WithIdFinds(b.requests[r].options, option); }
  }

  function Chosen(option: string): Outcome
  {
    if option == "" then Cancelled else Selected(option)
  }

  /** A response that is accepted tells the agent the option that the operator named, or that there is
      none, once; it is announced as allowed if and only if the first option with that id allows. */
  lemma ResponseIsTold(b: Broker, session: nat, r: nat, option: string)
    requires r in b.pending && r < |b.requests| && b.requests[r].session == session
    requires option == "" || HasId(b.requests[r].options, option)
    ensures var b' := Responded(b, session, r, option);
            && b'.answers == b.answers + [Answer(r, if option == "" then Cancelled else Selected(option), true)]
            && |b'.bus| == |b.bus| + 1 && b'.bus[..|b.bus|] == b.bus
            && b'.bus[|b.bus|].Resolved? && b'.bus[|b.bus|] == Resolved(r, false, b'.bus[|b.bus|].allowed, "")
            && (b'.bus[|b.bus|].allowed <==>
                option != "" && exists k :: FirstWithId(b.requests[r].options, k, option)
                                            && (b.requests[r].options[k].kind == "allow_once"
                                                || b.requests[r].options[k].kind == "allow_always"))
            && b'.pending == b.pending - {r} && b'.requests == b.requests
  {
    RefusedExactly(b, session, r, option);
    var k := WithIdIsFirst(b.requests[r].options, option);
  }

  // ---------------------------------------------------------------- automatic answers

  /** A request that nobody answers is rejected: by its first option that rejects once, else by its first
      that always rejects, and with neither it is cancelled. */
  lemma RejectsExactly(options: seq<Choice>) returns (k: int)
    ensures var once := exists c :: c in options && c.kind == "reject_once";
            var always := exists c :: c in options && c.kind == "reject_always";
            && (once ==> FirstOfKind(options, k, "reject_once") && RejectResponse(options) == Selected(options[k].id))
            && (!once && always ==>
                  FirstOfKind(options, k, "reject_always") && RejectResponse(options) == Selected(options[k].id))
            && (!once && !always ==> RejectResponse(options) == Cancelled)
  {
    var i := OfKindIsFirst(options, "reject_once");
    var j := OfKindIsFirst(options, "reject_always");
    k := if OfKind(options, "reject_once").Some? then i else j;
  }

  /** A request that needs review waits and is announced; any other is rejected at once. */
  lemma RequestIsTold(b: Broker, session: nat, options: seq<Choice>, reviewable: bool, reason: string)
    ensures var b', r := Asked(b, session, options, reviewable, reason), |b.requests|;
            && b'.requests == b.requests + [Request(session, options, reviewable)]
            && (reviewable ==>
                  b'.pending == b.pending + {r} && b'.answers == b.answers && b'.bus == b.bus + [Requested(r)])
            && (!reviewable ==> b'.pending == b.pending
                                && b'.answers == b.answers + [Answer(r, RejectResponse(options), false)]
                                && b'.bus == b.bus + [Resolved(r, true, false, reason)])
  {
  }

  lemma TimeoutIsTold(b: Broker, r: nat)
    requires r in b.pending && r < |b.requests|
    ensures var b' := TimedOut(b, r);
            && b'.answers == b.answers + [Answer(r, RejectResponse(b.requests[r].options), false)]
            && b'.bus == b.bus + [Resolved(r, true, false, "timeout")]
            && b'.pending == b.pending - {r} && b'.requests == b.requests
  {
  }

  /** Every answer that a cancellation adds is `Cancelled`, to a request of the session that was pending. */
  lemma {:induction false} CancellationIsTold(b: Broker, n: nat, session: nat, reason: string, k: nat)
    requires n <= |b.requests|
    ensures var b' := CancelledUpTo(b, n, session, reason);
            && b.answers <= b'.answers && b.bus <= b'.bus && b'.pending <= b.pending && b'.requests == b.requests
            && |b'.bus| - |b.bus| == |b'.answers| - |b.answers|
            && (|b.answers| <= k < |b'.answers| ==>
                  var a := b'.answers[k];
                  && a == Answer(a.request, Cancelled, false) && a.request in b.pending
                  && a.request < |b.requests| && b.requests[a.request].session == session
                  && b'.bus[|b.bus| + (k - |b.answers|)] == Resolved(a.request, true, false, reason))
  {
    if n > 0 { CancellationIsTold(b, n - 1, session, reason, k); }
  }

  /** Why the pending requests of a session are cancelled. */
  function ReasonOf(step: Step): string
    requires step.Cancel? || step.ProcessExits? || step.Close? || step.StartThrows? || step.RegistrationRefused?
  {
    if step.Cancel? then "session_cancelled" else if step.ProcessExits? then "process_exited"
    else if step.Close? then step.reason else "startup_failed"
  }

  /** A step that ends something for a session answers all its pending requests, and no others, with
      `Cancelled`, and announces each with the reason. */
  lemma EndingIsTold(s: State, step: Step, k: nat)
    requires Inv(s) && Enabled(s, step)
    requires step.Cancel? || step.ProcessExits? || step.Close? || step.StartThrows? || step.RegistrationRefused?
    ensures var b, b' := s.broker, BrokerAfter(s, step);
            && b.answers <= b'.answers && !HasPending(b', step.session)
            && (forall r :: r in b.pending && r < |b.requests| && b.requests[r].session != step.session ==>
                  r in b'.pending)
            && |b'.bus| - |b.bus| == |b'.answers| - |b.answers|
            && (|b.answers| <= k < |b'.answers| ==>
                  && b'.answers[k] == Answer(b'.answers[k].request, Cancelled, false)
                  && b'.bus[|b.bus| + (k - |b.answers|)]
                     == Resolved(b'.answers[k].request, true, false, ReasonOf(step)))
  {
    CancelledSessionKeeps(s.broker, step.session, ReasonOf(step));
    CancellationIsTold(s.broker, |s.broker.requests|, step.session, ReasonOf(step), k);
    hide Inv, Sound, HasPending;
  }

  // ---------------------------------------------------------------- whole runs

  /** Which answer a step can add on behalf of an operator. */
  lemma StepAnswers(s: State, step: Step, k: nat)
    requires Enabled(s, step)
    ensures var after := BrokerAfter(s, step).answers;
            && s.broker.answers <= after
            && (|s.broker.answers| <= k < |after| && after[k].operator ==>
                  step.Respond? && after[k] == Answer(step.request, Chosen(step.option), true))
  {
    var b := s.broker;
    var n := |b.requests|;
    match step
    case StartThrows(i) => CancellationIsTold(b, n, i, "startup_failed", k);
    case RegistrationRefused(i) => CancellationIsTold(b, n, i, "startup_failed", k);
    case Cancel(i) => CancellationIsTold(b, n, i, "session_cancelled", k);
    case ProcessExits(i, _) => CancellationIsTold(b, n, i, "process_exited", k);
    case Close(i, reason) => CancellationIsTold(b, n, i, reason, k);
    case Respond(i, r, option) =>
      RefusedExactly(b, i, r, option);
      ResponseIsTold(b, i, r, option);
    case _ =>
  }

  /** In every run, what an agent was told on behalf of an operator is the option, or the cancellation, of
      a response that was accepted for that very request. */
  lemma {:induction false} OperatorIsObeyed(steps: seq<Step>, k: nat) returns (n: nat)
    requires k < |Run(steps).broker.answers| && Run(steps).broker.answers[k].operator
    ensures n < |steps| && steps[n].Respond? && Enabled(Run(steps[..n]), steps[n])
    ensures Run(steps).broker.answers[k] == Answer(steps[n].request, Chosen(steps[n].option), true)
  {
    hide BrokerAfter, SessionAfter, TurnsAfter, Enabled;
    assert steps != [];
    var m := |steps| - 1;
    var s, step := Run(steps[..m]), steps[m];
    if k < |s.broker.answers| {
      if Enabled(s, step) { StepAnswers(s, step, k); }
      n := OperatorIsObeyed(steps[..m], k);
      assert steps[..m][..n] == steps[..n];
    } else {
      assert Enabled(s, step);
      StepAnswers(s, step, k);
      n := m;
    }
  }
}
