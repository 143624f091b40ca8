/**
 The permission broker: requests of agents wait for the operator, a timeout or the end of their
 session. Requests are numbered in the order they are made, which is the order of the pending map.
 Answers and events are kept as history.
 */
module Permissions {

  import opened Prelude

  datatype Choice = Choice(id: string, kind: string)

  datatype Outcome = Selected(option: string) | Cancelled

  datatype Request = Request(session: nat, options: seq<Choice>, reviewable: bool)

  datatype Event =
    | Requested(request: nat)
    | Resolved(request: nat, automatic: bool, allowed: bool, reason: string)

  /** What the agent was told; `operator` says whether an operator chose it. */
  datatype Answer = Answer(request: nat, outcome: Outcome, operator: bool)

  datatype Broker = Broker(requests: seq<Request>, pending: set<nat>, answers: seq<Answer>, bus: seq<Event>)

  const NOTHING := Broker([], {}, [], [])

  // ---------------------------------------------------------------- answers

  function OfKind(options: seq<Choice>, kind: string): Option<Choice>
  {
    if options == [] then None
    else if options[0].kind == kind then Some(options[0])
    else OfKind(options[1..], kind)
  }

  function WithId(options: seq<Choice>, id: string): Option<Choice>
  {
    if options == [] then None
    else if options[0].id == id then Some(options[0])
    else WithId(options[1..], id)
  }

  function RejectResponse(options: seq<Choice>): Outcome
  {
    var once := OfKind(options, "reject_once");
    var always := OfKind(options, "reject_always");
    if once.Some? then Selected(once.value.id)
    else if always.Some? then Selected(always.value.id)
    else Cancelled
  }

  predicate Rejects(c: Choice)
  {
    c.kind == "reject_once" || c.kind == "reject_always"
  }

  predicate Allows(c: Choice)
  {
    c.kind == "allow_once" || c.kind == "allow_always"
  }

  // ---------------------------------------------------------------- operations

  /** The call of a handler. A request that no operator may allow is answered at once. */
  function Asked(b: Broker, session: nat, options: seq<Choice>, reviewable: bool, reason: string): Broker
  {
    var r := |b.requests|;
    var b' := b.(requests := b.requests + [Request(session, options, reviewable)]);
    if reviewable then b'.(pending := b.pending + {r}, bus := b.bus + [Requested(r)])
    else b'.(bus := b.bus + [Resolved(r, true, false, reason)],
             answers := b.answers + [Answer(r, RejectResponse(options), false)])
  }

  function Settled(b: Broker, r: nat, answer: Answer, event: Event): Broker
  {
    b.(pending := b.pending - {r}, answers := b.answers + [answer], bus := b.bus + [event])
  }

  function TimedOut(b: Broker, r: nat): Broker
  {
    if r !in b.pending || r >= |b.requests| then b
    else Settled(b, r, Answer(r, RejectResponse(b.requests[r].options), false), Resolved(r, true, false, "timeout"))
  }

  datatype Refusal = NotFound | Invalid

  function Refused(b: Broker, session: nat, r: nat, option: string): Option<Refusal>
  {
    if r !in b.pending || r >= |b.requests| || b.requests[r].session != session then Some(NotFound)
    else if option != "" && WithId(b.requests[r].options, option).None? then Some(Invalid)
    else None
  }

  /** `respond`; an operator who names no option cancels. */
  function Responded(b: Broker, session: nat, r: nat, option: string): Broker
  {
    if Refused(b, session, r, option).Some? then b
    else if option == "" then Settled(b, r, Answer(r, Cancelled, true), Resolved(r, false, false, ""))
    else
      var chosen := WithId(b.requests[r].options, option).value;
      Settled(b, r, Answer(r, Selected(option), true), Resolved(r, false, Allows(chosen), ""))
  }

  function CancelledUpTo(b: Broker, n: nat, session: nat, reason: string): Broker
  {
    if n == 0 then b
    else
      var b' := CancelledUpTo(b, n - 1, session, reason);
      if n - 1 in b'.pending && n - 1 < |b'.requests| && b'.requests[n - 1].session == session
      then Settled(b', n - 1, Answer(n - 1, Cancelled, false), Resolved(n - 1, true, false, reason))
      else b'
  }

  function CancelledSession(b: Broker, session: nat, reason: string): Broker
  {
    CancelledUpTo(b, |b.requests|, session, reason)
  }

  predicate HasPending(b: Broker, session: nat)
  {
    exists r :: r in b.pending && r < |b.requests| && b.requests[r].session == session
  }

  // ---------------------------------------------------------------- history

  function TimesRequested(bus: seq<Event>, r: nat): nat
  {
    if bus == [] then 0
    else TimesRequested(bus[..|bus| - 1], r) + (if bus[|bus| - 1] == Requested(r) then 1 else 0)
  }

  function TimesResolved(bus: seq<Event>, r: nat): nat
  {
    if bus == [] then 0
    else
      var e := bus[|bus| - 1];
      TimesResolved(bus[..|bus| - 1], r) + (if e.Resolved? && e.request == r then 1 else 0)
  }

  function TimesAnswered(answers: seq<Answer>, r: nat): nat
  {
    if answers == [] then 0
    else TimesAnswered(answers[..|answers| - 1], r) + (if answers[|answers| - 1].request == r then 1 else 0)
  }

  ghost predicate Counts(b: Broker, r: nat, requested: nat, resolved: nat)
  {
    && TimesRequested(b.bus, r) == requested
    && TimesResolved(b.bus, r) == resolved && TimesAnswered(b.answers, r) == resolved
  }

  /** A request is pending exactly while it is unanswered, and is announced, resolved and answered
      once; one that needs no review is resolved without having been announced. */
  ghost predicate Accounted(b: Broker, r: nat)
  {
    if r >= |b.requests| then r !in b.pending && Counts(b, r, 0, 0)
    else if b.requests[r].reviewable then Counts(b, r, 1, if r in b.pending then 0 else 1)
    else r !in b.pending && Counts(b, r, 0, 1)
  }

  /** An option is selected only among those of the request, and by an operator unless it rejects. */
  ghost predicate Justified(b: Broker, a: Answer)
  {
    && a.request < |b.requests|
    && (a.outcome.Selected? ==>
          exists c :: c in b.requests[a.request].options && c.id == a.outcome.option && (a.operator || Rejects(c)))
  }

  ghost predicate Sound(b: Broker)
  {
    (forall r: nat :: Accounted(b, r)) && forall a :: a in b.answers ==> Justified(b, a)
  }

  // ---------------------------------------------------------------- every operation keeps it

  lemma {:induction false} OfKindFinds(options: seq<Choice>, kind: string)
    ensures OfKind(options, kind).Some? ==>
              OfKind(options, kind).value in options && OfKind(options, kind).value.kind == kind
  {
    if options != [] { OfKindFinds(options[1..], kind); }
  }

  lemma {:induction false} WithIdFinds(options: seq<Choice>, id: string)
    ensures WithId(options, id).Some? ==> WithId(options, id).value in options && WithId(options, id).value.id == id
    ensures WithId(options, id).None? ==> forall c :: c in options ==> c.id != id
  {
    if options != [] { WithIdFinds(options[1..], id); }
  }

  lemma RejectRejects(options: seq<Choice>)
    ensures var o := RejectResponse(options);
            o.Selected? ==> exists c :: c in options && c.id == o.option && Rejects(c)
  {
    OfKindFinds(options, "reject_once");
    OfKindFinds(options, "reject_always");
  }

  lemma AskedKeeps(b: Broker, session: nat, options: seq<Choice>, reviewable: bool, reason: string)
    requires Sound(b)
    ensures Sound(Asked(b, session, options, reviewable, reason))
  {
    var n := |b.requests|;
    var b' := Asked(b, session, options, reviewable, reason);
    forall r: nat ensures Accounted(b', r) {
      assert Accounted(b, r);
    }
    RejectRejects(options);
    forall a | a in b'.answers ensures Justified(b', a) {
      assert a in b.answers ==> Justified(b, a);
    }
  }

  lemma SettledKeeps(b: Broker, r: nat, answer: Answer, event: Event)
    requires Sound(b) && r in b.pending
    requires answer.request == r && event.Resolved? && event.request == r && Justified(b, answer)
    ensures Sound(Settled(b, r, answer, event))
  {
    var b' := Settled(b, r, answer, event);
    assert Accounted(b, r);
    forall q: nat ensures Accounted(b', q) {
      assert Accounted(b, q);
    }
    forall a | a in b'.answers ensures Justified(b', a) {
      assert a in b.answers ==> Justified(b, a);
    }
  }

  lemma TimedOutKeeps(b: Broker, r: nat)
    requires Sound(b)
    ensures Sound(TimedOut(b, r))
  {
    hide Sound;
    if r in b.pending && r < |b.requests| {
      RejectRejects(b.requests[r].options);
      SettledKeeps(b, r, Answer(r, RejectResponse(b.requests[r].options), false), Resolved(r, true, false, "timeout"));
    }
  }

  lemma RespondedKeeps(b: Broker, session: nat, r: nat, option: string)
    requires Sound(b)
    ensures Sound(Responded(b, session, r, option))
  {
    hide Sound;
    if Refused(b, session, r, option).None? {
      if option == "" {
        SettledKeeps(b, r, Answer(r, Cancelled, true), Resolved(r, false, false, ""));
      } else {
        WithIdFinds(b.requests[r].options, option);
        var chosen := WithId(b.requests[r].options, option).value;
        SettledKeeps(b, r, Answer(r, Selected(option), true), Resolved(r, false, Allows(chosen), ""));
      }
    }
  }

  /** Cancelling a session settles its pending requests and no others. */
  lemma {:induction false} CancelledUpToKeeps(b: Broker, n: nat, session: nat, reason: string)
    requires Sound(b) && n <= |b.requests|
    ensures var b' := CancelledUpTo(b, n, session, reason);
            && Sound(b') && b'.requests == b.requests
            && forall r: nat :: r in b'.pending <==>
                                r in b.pending && !(r < n && b.requests[r].session == session)
  {
    hide Sound;
    if n > 0 {
      CancelledUpToKeeps(b, n - 1, session, reason);
      var b' := CancelledUpTo(b, n - 1, session, reason);
      if n - 1 in b'.pending && b'.requests[n - 1].session == session {
        SettledKeeps(b', n - 1, Answer(n - 1, Cancelled, false), Resolved(n - 1, true, false, reason));
      }
    }
  }

  lemma CancelledSessionKeeps(b: Broker, session: nat, reason: string)
    requires Sound(b)
    ensures var b' := CancelledSession(b, session, reason);
            && Sound(b') && b'.requests == b.requests && !HasPending(b', session)
            && forall r: nat :: r in b.pending && r < |b.requests| && b.requests[r].session != session ==>
                                r in b'.pending
  {
    CancelledUpToKeeps(b, |b.requests|, session, reason);
  }

  /** A non-rejecting option reaches an agent only through an operator who was shown it for that
      very request. */
  lemma AllowedByOperator(b: Broker, a: Answer)
    requires Sound(b) && a in b.answers && a.outcome.Selected?
    requires forall c :: c in b.requests[a.request].options && c.id == a.outcome.option ==> !Rejects(c)
    ensures a.operator && exists c :: c in b.requests[a.request].options && c.id == a.outcome.option
  {
    assert Justified(b, a);
  }

  /** Whoever comes second, timer or operator, finds the request gone. */
  lemma FirstAnswerStands(b: Broker, r: nat, session: nat, option: string)
    requires Sound(b) && TimesAnswered(b.answers, r) > 0
    ensures TimedOut(b, r) == b
    ensures Refused(b, session, r, option) == Some(NotFound) && Responded(b, session, r, option) == b
  {
    assert Accounted(b, r);
  }
}
