/**
 Agent sessions as a state machine: prompts, cancels, permission requests, process exits and closes in
 any order. Sessions and turns are numbered as they begin; what ends stays as history. A close while a
 session is still starting is not modelled.
 */
module AcpSessions {

  import opened Prelude
  import opened Permissions

  datatype Status = Starting | Ready | Prompting | AwaitingPermission | Cancelling | Failed | Closing | Closed

  /** How far `start` is: running, undoing a start that was refused at the end, returned, or thrown. */
  datatype Phase = Launching | Undoing | Started | Abandoned

  /** `shown` is the status last published, `closes` counts the calls of the runtime's `close`.
      `failed` records that a turn or the process failed once the session had a runtime,
      `cancelledEarly` that a cancel came before it had one, with no prompt or process exit since. */
  datatype Session = Session(
    phase: Phase, status: Status, shown: Status, live: bool, registered: bool,
    activeTurn: Option<nat>, cancelRequested: bool, closes: nat, failed: bool, cancelledEarly: bool)

  /** A call of `runtime.prompt`. */
  datatype Turn = Turn(session: nat, outstanding: bool)

  datatype State = State(broker: Broker, sessions: seq<Session>, turns: seq<Turn>)

  const INITIAL := State(NOTHING, [], [])

  const NEW := Session(Launching, Starting, Starting, true, false, None, false, 0, false, false)

  datatype Step =
    | Begin
    | StartReturns(session: nat)
    | StartThrows(session: nat)
    | RegistrationRefused(session: nat)
    | StartUndone(session: nat)
    | Ask(session: nat, options: seq<Choice>, reviewable: bool, reason: string)
    | Timeout(request: nat)
    | Respond(session: nat, request: nat, option: string)
    | Prompt(session: nat)
    | PromptSettles(turn: nat, succeeds: bool)
    | Cancel(session: nat)
    | ProcessExits(session: nat, expected: bool)
    | Close(session: nat, reason: string)
    | RuntimeCancelled(session: nat)
    | RuntimeClosed(session: nat)

  // ---------------------------------------------------------------- one session

  predicate IsClosing(s: Session)
  {
    s.status == Closing || s.status == Closed
  }

  function Published(s: Session): Session
  {
    s.(shown := s.status)
  }

  function PendingChanged(s: Session, pending: bool): Session
  {
    if !s.live || IsClosing(s) then s
    else Published(s.(status := if pending then AwaitingPermission else Prompting))
  }

  predicate MayPrompt(s: Session)
  {
    s.live && s.status == Ready
  }

  predicate MayCancel(s: Session)
  {
    s.live && (s.status == Prompting || s.status == AwaitingPermission)
  }

  predicate MayClose(s: Session)
  {
    s.live && s.phase == Started && !IsClosing(s)
  }

  function TurnEnded(s: Session, turn: nat, succeeds: bool): Session
  {
    if !s.live || s.activeTurn != Some(turn) then s
    else
      var s' := s.(activeTurn := None, cancelRequested := false);
      if IsClosing(s) then s'
      else if succeeds || s.cancelRequested then Published(s'.(status := Ready))
      else Published(s'.(status := Failed, failed := true))
  }

  function Exited(s: Session): Session
  {
    Published(s.(activeTurn := None, cancelRequested := false, cancelledEarly := false, status := Failed,
                 registered := false,
                 failed := s.failed || s.phase != Launching))
  }

  // ---------------------------------------------------------------- steps

  predicate Enabled(s: State, step: Step)
  {
    match step
    case Begin => true
    case StartReturns(i) => i < |s.sessions| && s.sessions[i].phase == Launching
    case StartThrows(i) => i < |s.sessions| && s.sessions[i].phase == Launching
    case RegistrationRefused(i) => i < |s.sessions| && s.sessions[i].phase == Launching
    case StartUndone(i) => i < |s.sessions| && s.sessions[i].phase == Undoing
    case Ask(i, _, _, _) => i < |s.sessions|
    case Timeout(r) => r in s.broker.pending && r < |s.broker.requests| && s.broker.requests[r].session < |s.sessions|
    case Respond(i, r, option) => i < |s.sessions| && s.sessions[i].live && Refused(s.broker, i, r, option).None?
    case Prompt(i) => i < |s.sessions| && MayPrompt(s.sessions[i])
    case PromptSettles(t, _) => t < |s.turns| && s.turns[t].outstanding && s.turns[t].session < |s.sessions|
    case Cancel(i) => i < |s.sessions| && MayCancel(s.sessions[i])
    case ProcessExits(i, expected) => i < |s.sessions| && !expected && s.sessions[i].live && !IsClosing(s.sessions[i])
    case Close(i, _) => i < |s.sessions| && MayClose(s.sessions[i])
    case RuntimeCancelled(i) => i < |s.sessions| && s.sessions[i].status == Closing && s.sessions[i].closes == 0
    case RuntimeClosed(i) => i < |s.sessions| && s.sessions[i].status == Closing && s.sessions[i].closes > 0
  }

  /** The session a step is about, once it has happened. */
  function Subject(s: State, step: Step): nat
    requires Enabled(s, step)
  {
    match step
    case Begin => |s.sessions|
    case Timeout(r) => s.broker.requests[r].session
    case PromptSettles(t, _) => s.turns[t].session
    case _ => step.session
  }

  /** What a step makes of its session. */
  function SessionAfter(s: State, step: Step): Session
    requires Enabled(s, step)
  {
    if step.Begin? then NEW
    else
      var o := s.sessions[Subject(s, step)];
      match step
      case Begin => NEW
      case StartReturns(_) => Published(o.(phase := Started, status := Ready, registered := true))
      case StartThrows(_) => Published(o.(phase := Abandoned, status := Failed, live := false))
      case RegistrationRefused(_) => o.(phase := Undoing, status := Ready, closes := 1)
      case StartUndone(_) => Published(o.(phase := Abandoned, status := Failed, live := false))
      case Ask(_, _, reviewable, _) => if reviewable then PendingChanged(o, true) else o
      case Timeout(r) => PendingChanged(o, HasPending(TimedOut(s.broker, r), Subject(s, step)))
      case Respond(i, r, option) =>
        if o.status == AwaitingPermission && !HasPending(Responded(s.broker, i, r, option), i)
        then Published(o.(status := Prompting)) else o
      case Prompt(_) =>
        Published(o.(activeTurn := Some(|s.turns|), cancelRequested := false, cancelledEarly := false,
                     status := Prompting))
      case PromptSettles(t, succeeds) => TurnEnded(o, t, succeeds)
      case Cancel(_) =>
        Published(o.(cancelRequested := true, status := Cancelling,
                     cancelledEarly := o.cancelledEarly || o.phase == Launching))
      case ProcessExits(_, _) => Exited(o)
      case Close(_, _) => Published(o.(status := Closing))
      case RuntimeCancelled(_) => o.(closes := o.closes + 1)
      case RuntimeClosed(_) => Published(o.(status := Closed, registered := false, live := false))
  }

  function BrokerAfter(s: State, step: Step): Broker
    requires Enabled(s, step)
  {
    match step
    case StartThrows(i) => CancelledSession(s.broker, i, "startup_failed")
    case RegistrationRefused(i) => CancelledSession(s.broker, i, "startup_failed")
    case Ask(i, options, reviewable, reason) => Asked(s.broker, i, options, reviewable, reason)
    case Timeout(r) => TimedOut(s.broker, r)
    case Respond(i, r, option) => Responded(s.broker, i, r, option)
    case Cancel(i) => CancelledSession(s.broker, i, "session_cancelled")
    case ProcessExits(i, _) => CancelledSession(s.broker, i, "process_exited")
    case Close(i, reason) => CancelledSession(s.broker, i, reason)
    case _ => s.broker
  }

  function TurnsAfter(s: State, step: Step): seq<Turn>
    requires Enabled(s, step)
  {
    match step
    case Prompt(i) => s.turns + [Turn(i, true)]
    case PromptSettles(t, _) => s.turns[t := s.turns[t].(outstanding := false)]
    case _ => s.turns
  }

  function Next(s: State, step: Step): State
  {
    if !Enabled(s, step) then s
    else
      var i := Subject(s, step);
      var o := SessionAfter(s, step);
      State(BrokerAfter(s, step),
            if step.Begin? then s.sessions + [o] else s.sessions[i := o],
            TurnsAfter(s, step))
  }

  function Run(steps: seq<Step>): State
  {
    if steps == [] then INITIAL else Next(Run(steps[..|steps| - 1]), steps[|steps| - 1])
  }

  // ---------------------------------------------------------------- what one session keeps

  ghost predicate SessionOk(s: Session)
  {
    && (s.status == Ready ==> s.activeTurn.None? && (s.cancelRequested <==> s.cancelledEarly))
    && (s.failed ==> s.status != Ready && s.activeTurn.None?)
    && (s.phase == Launching ==>
          && s.live && !s.registered && s.closes == 0 && s.activeTurn.None? && !s.failed
          && !IsClosing(s) && s.status != Ready)
    && (s.phase == Undoing ==> s.live && !s.registered && s.closes == 1 && !IsClosing(s))
    && (s.phase == Abandoned ==> !s.live && !s.registered && s.closes <= 1 && s.status == Failed)
    && (s.phase == Started && !IsClosing(s) ==> s.live && s.closes == 0)
    && (s.status == Closing ==> s.live && s.closes <= 1)
    && (s.status == Closed ==> !s.live && !s.registered && s.closes == 1)
    && (s.phase != Undoing ==> s.shown == s.status)
    && (s.phase == Started && s.live && !s.failed ==> s.registered)
    && (s.phase == Launching ==> (s.cancelRequested <==> s.cancelledEarly))
    && (s.activeTurn.Some? ==> !s.cancelledEarly)
    && (s.status == Cancelling ==> s.cancelRequested)
    && (s.activeTurn.Some? && !s.cancelRequested && !IsClosing(s) && s.phase != Abandoned ==>
          s.status == Prompting || s.status == AwaitingPermission)
  }

  lemma SessionStepKeeps(s: State, step: Step)
    requires Enabled(s, step)
    requires !step.Begin? ==> SessionOk(s.sessions[Subject(s, step)])
    ensures SessionOk(SessionAfter(s, step))
  {
    hide HasPending, TimedOut, Responded, Refused;
  }

  // ---------------------------------------------------------------- turns

  predicate Outstanding(turns: seq<Turn>, t: nat, i: nat)
  {
    t < |turns| && turns[t].outstanding && turns[t].session == i
  }

  /** At most one call of the runtime's `prompt` is outstanding for session `i`; the active turn of a
      live session is that one, and while it is ready there is none. */
  ghost predicate OneTurn(turns: seq<Turn>, i: nat, o: Session)
  {
    && (forall t, u :: Outstanding(turns, t, i) && Outstanding(turns, u, i) ==> t == u)
    && (o.live && o.activeTurn.Some? ==> Outstanding(turns, o.activeTurn.value, i))
    && (o.status == Ready || o.phase == Launching ==> forall t :: !Outstanding(turns, t, i))
  }

  lemma OwnTurnKept(s: State, step: Step)
    requires Enabled(s, step) && !step.Begin?
    requires var i := Subject(s, step); SessionOk(s.sessions[i]) && OneTurn(s.turns, i, s.sessions[i])
    ensures OneTurn(TurnsAfter(s, step), Subject(s, step), SessionAfter(s, step))
  {
    hide HasPending, TimedOut, Responded, Refused;
    var i := Subject(s, step);
    var turns := TurnsAfter(s, step);
    if step.Prompt? {
      forall t: nat ensures Outstanding(turns, t, i) <==> t == |s.turns| {
        assert !Outstanding(s.turns, t, i);
      }
    } else if step.PromptSettles? {
      assert Outstanding(s.turns, step.turn, i);
      forall t: nat ensures !Outstanding(turns, t, i) {
        assert Outstanding(s.turns, t, i) ==> t == step.turn;
      }
    } else {
      assert turns == s.turns;
    }
  }

  lemma OtherTurnKept(s: State, step: Step, j: nat)
    requires Enabled(s, step) && Subject(s, step) != j && j < |s.sessions|
    requires OneTurn(s.turns, j, s.sessions[j])
    ensures OneTurn(TurnsAfter(s, step), j, s.sessions[j])
  {
    forall t: nat ensures Outstanding(TurnsAfter(s, step), t, j) <==> Outstanding(s.turns, t, j) {}
  }

  // ---------------------------------------------------------------- every run

  ghost predicate Inv(s: State)
  {
    && Sound(s.broker)
    && (forall r: nat :: r in s.broker.pending ==> r < |s.broker.requests|)
    && (forall r :: 0 <= r < |s.broker.requests| ==> s.broker.requests[r].session < |s.sessions|)
    && (forall t :: 0 <= t < |s.turns| ==> s.turns[t].session < |s.sessions|)
    && (forall i :: 0 <= i < |s.sessions| ==> SessionOk(s.sessions[i]) && OneTurn(s.turns, i, s.sessions[i]))
  }

  lemma NextKeeps(s: State, step: Step)
    requires Inv(s)
    ensures Inv(Next(s, step))
  {
    if Enabled(s, step) {
      BrokerKept(s, step);
      SessionsKept(s, step);
    }
  }

  lemma BrokerKept(s: State, step: Step)
    requires Inv(s) && Enabled(s, step)
    ensures var b := BrokerAfter(s, step);
            && Sound(b) && |b.requests| >= |s.broker.requests|
            && (forall r: nat :: r in b.pending ==> r < |b.requests|)
            && (forall r :: 0 <= r < |b.requests| ==>
                  b.requests[r].session <= |s.sessions| - (if step.Begin? then 0 else 1))
  {
    hide SessionOk, OneTurn, Accounted, Justified, SessionAfter, TurnsAfter;
    var b := s.broker;
    match step
    case StartThrows(i) => CancelledUpToKeeps(b, |b.requests|, i, "startup_failed");
    case RegistrationRefused(i) => CancelledUpToKeeps(b, |b.requests|, i, "startup_failed");
    case Ask(i, options, reviewable, reason) => AskedKeeps(b, i, options, reviewable, reason);
    case Timeout(r) => TimedOutKeeps(b, r);
    case Respond(i, r, option) => RespondedKeeps(b, i, r, option);
    case Cancel(i) => CancelledUpToKeeps(b, |b.requests|, i, "session_cancelled");
    case ProcessExits(i, _) => CancelledUpToKeeps(b, |b.requests|, i, "process_exited");
    case Close(i, reason) => CancelledUpToKeeps(b, |b.requests|, i, reason);
    case _ =>
  }

  lemma SessionsKept(s: State, step: Step)
    requires Inv(s) && Enabled(s, step)
    ensures var s' := Next(s, step);
            forall j :: 0 <= j < |s'.sessions| ==> SessionOk(s'.sessions[j]) && OneTurn(s'.turns, j, s'.sessions[j])
  {
    hide SessionOk, OneTurn, SessionAfter, BrokerAfter, TurnsAfter, Sound;
    var i := Subject(s, step);
    SessionStepKeeps(s, step);
    if !step.Begin? { OwnTurnKept(s, step); } else { FirstTurnNone(s); }
    forall j | 0 <= j < |s.sessions| && j != i ensures OneTurn(TurnsAfter(s, step), j, s.sessions[j]) {
      OtherTurnKept(s, step, j);
    }
  }

  lemma FirstTurnNone(s: State)
    requires forall t :: 0 <= t < |s.turns| ==> s.turns[t].session < |s.sessions|
    ensures OneTurn(TurnsAfter(s, Begin), |s.sessions|, SessionAfter(s, Begin))
  {
  }

  lemma {:induction false} RunKeeps(steps: seq<Step>)
    ensures Inv(Run(steps))
  {
    hide Next, Inv;
    if steps == [] {
      NothingYet();
    } else {
      RunKeeps(steps[..|steps| - 1]);
      NextKeeps(Run(steps[..|steps| - 1]), steps[|steps| - 1]);
    }
  }

  lemma NothingYet()
    ensures Inv(INITIAL)
  {
  }

  // ---------------------------------------------------------------- what holds in every run

  lemma OnePromptAtATime(steps: seq<Step>, t: nat, u: nat, i: nat)
    requires Outstanding(Run(steps).turns, t, i) && Outstanding(Run(steps).turns, u, i)
    ensures t == u
  {
    RunKeeps(steps);
    var s := Run(steps);
    assert s.turns[t].session < |s.sessions|;
    assert OneTurn(s.turns, i, s.sessions[i]);
  }

  /** A session that is ready has no turn; and it has a cancel request exactly when one came before its
      start returned, with no prompt and no process exit since. */
  lemma ReadyIsIdle(steps: seq<Step>, i: nat, t: nat)
    requires i < |Run(steps).sessions| && Run(steps).sessions[i].status == Ready
    ensures var o := Run(steps).sessions[i];
            o.activeTurn.None? && !Outstanding(Run(steps).turns, t, i) && (o.cancelRequested <==> o.cancelledEarly)
  {
    RunKeeps(steps);
  }

  /** The status last published is the status, except while a refused start is undone. */
  lemma StatusIsShown(steps: seq<Step>, i: nat)
    requires i < |Run(steps).sessions| && Run(steps).sessions[i].phase != Undoing
    ensures Run(steps).sessions[i].shown == Run(steps).sessions[i].status
  {
    RunKeeps(steps);
  }

  /** A request is announced, resolved and answered once each, and pending until then. */
  lemma ResolvedOnce(steps: seq<Step>, r: nat)
    requires r < |Run(steps).broker.requests| && Run(steps).broker.requests[r].reviewable
    ensures var b := Run(steps).broker;
            && TimesRequested(b.bus, r) == 1
            && TimesResolved(b.bus, r) == TimesAnswered(b.answers, r) == if r in b.pending then 0 else 1
  {
    RunKeeps(steps);
    assert Accounted(Run(steps).broker, r);
  }

  predicate ReadyCancelled(o: Session)
  {
    o.status == Ready && o.cancelRequested
  }

  /** A session becomes ready with a cancel request exactly when its start returns, or is refused its
      registration, while the request is there. */
  lemma ReadyCancelledExactly(s: State, step: Step, i: nat)
    requires Inv(s) && i < |s.sessions| && !ReadyCancelled(s.sessions[i])
    ensures i < |Next(s, step).sessions|
    ensures ReadyCancelled(Next(s, step).sessions[i]) <==>
            && Enabled(s, step) && (step.StartReturns? || step.RegistrationRefused?)
            && step.session == i && s.sessions[i].cancelRequested
  {
    hide HasPending, TimedOut, Responded, Refused, BrokerAfter, TurnsAfter, OneTurn, Sound;
    assert SessionOk(s.sessions[i]);
  }

  /** The request then stays exactly until a prompt is accepted or the process exits. */
  lemma CancelledUntil(s: State, step: Step, i: nat)
    requires Inv(s) && i < |s.sessions| && s.sessions[i].cancelRequested && s.sessions[i].cancelledEarly
    ensures i < |Next(s, step).sessions|
    ensures var o := Next(s, step).sessions[i];
            && (o.cancelRequested <==> o.cancelledEarly)
            && (o.cancelRequested <==>
                !(Enabled(s, step) && (step.Prompt? || step.ProcessExits?) && step.session == i))
  {
    hide HasPending, TimedOut, Responded, Refused, BrokerAfter, TurnsAfter, OneTurn, Sound;
    assert SessionOk(s.sessions[i]);
  }

  /** It does happen: a permission request during the start makes the session cancellable. */
  lemma ReadyButCancelled(s: State, options: seq<Choice>)
    ensures var i := |s.sessions|;
            var s1 := Next(Next(s, Begin), Ask(i, options, true, ""));
            var s2 := Next(Next(s1, Cancel(i)), StartReturns(i));
            |s2.sessions| == i + 1 && s2.sessions[i].phase == Started && ReadyCancelled(s2.sessions[i])
  {
    hide CancelledSession, Asked;
    var i := |s.sessions|;
    var asked := Next(Next(s, Begin), Ask(i, options, true, ""));
    assert asked.sessions[i] == NEW.(status := AwaitingPermission, shown := AwaitingPermission);
    var cancelled := Next(asked, Cancel(i));
    assert cancelled.sessions[i].phase == Launching && cancelled.sessions[i].cancelRequested;
  }

  // ---------------------------------------------------------------- what never turns back

  ghost predicate Later(o: Session, o': Session)
  {
    && (o.failed ==> o'.failed)
    && (o.status == Closing ==> o'.status == Closing || o'.status == Closed)
    && (!o.live ==> o' == o)
    && o.closes <= o'.closes
  }

  lemma SessionsOnlyAdvance(s: State, step: Step, i: nat)
    requires Inv(s) && i < |s.sessions|
    ensures i < |Next(s, step).sessions| && Later(s.sessions[i], Next(s, step).sessions[i])
  {
    hide HasPending, TimedOut, Responded, Refused, BrokerAfter, TurnsAfter, OneTurn, Sound;
    assert SessionOk(s.sessions[i]);
  }

  lemma NoTurnAfterFailure(s: State, step: Step, i: nat)
    requires Inv(s) && i < |s.sessions| && s.sessions[i].failed
    ensures forall t :: |s.turns| <= t < |Next(s, step).turns| ==> Next(s, step).turns[t].session != i
    ensures |s.turns| <= |Next(s, step).turns|
    ensures forall t :: 0 <= t < |s.turns| ==> Next(s, step).turns[t].session == s.turns[t].session
  {
    hide SessionAfter, BrokerAfter, OneTurn, Sound;
    assert SessionOk(s.sessions[i]);
  }

  /** Once a session has failed it stays so and gets no further turn; once it is closing it only
      becomes closed; once it is gone nothing changes it; and its runtime is closed at most once. */
  lemma {:induction false} NothingTurnsBack(steps: seq<Step>, n: nat, i: nat)
    requires n <= |steps| && i < |Run(steps[..n]).sessions|
    ensures i < |Run(steps).sessions| && Later(Run(steps[..n]).sessions[i], Run(steps).sessions[i])
    ensures Run(steps).sessions[i].closes <= 1
    ensures |Run(steps[..n]).turns| <= |Run(steps).turns|
    ensures Run(steps[..n]).sessions[i].failed ==>
              forall t :: |Run(steps[..n]).turns| <= t < |Run(steps).turns| ==> Run(steps).turns[t].session != i
  {
    hide Next;
    RunKeeps(steps);
    if n == |steps| {
      assert steps[..n] == steps;
    } else {
      var m := |steps| - 1;
      assert steps[..m][..n] == steps[..n];
      NothingTurnsBack(steps[..m], n, i);
      RunKeeps(steps[..m]);
      SessionsOnlyAdvance(Run(steps[..m]), steps[m], i);
      TurnsOnlyGrow(Run(steps[..m]), steps[m]);
      if Run(steps[..n]).sessions[i].failed { NoTurnAfterFailure(Run(steps[..m]), steps[m], i); }
    }
    assert SessionOk(Run(steps).sessions[i]);
  }

  lemma TurnsOnlyGrow(s: State, step: Step)
    ensures |s.turns| <= |Next(s, step).turns|
  {
    hide SessionAfter, BrokerAfter;
  }

  // ---------------------------------------------------------------- what a step does to a session

  /** A session fails exactly when its process exits unexpectedly or its turn fails uncancelled. */
  lemma FailsExactly(s: State, step: Step, i: nat)
    requires Inv(s) && i < |s.sessions| && !s.sessions[i].failed
    ensures i < |Next(s, step).sessions|
    ensures var o := s.sessions[i];
            Next(s, step).sessions[i].failed <==>
            Enabled(s, step) &&
            ((step.ProcessExits? && step.session == i && o.phase != Launching)
             || (step.PromptSettles? && s.turns[step.turn].session == i && !step.succeeds && o.live
                 && o.activeTurn == Some(step.turn) && !o.cancelRequested && !IsClosing(o)))
  {
    hide HasPending, TimedOut, Responded, Refused, BrokerAfter, TurnsAfter, OneTurn, Sound;
    assert SessionOk(s.sessions[i]);
  }

  /** The steps that end something for a session leave it no pending permission. */
  lemma EndsClearPending(s: State, step: Step)
    requires Inv(s) && Enabled(s, step)
    requires step.Cancel? || step.ProcessExits? || step.Close? || step.StartThrows? || step.RegistrationRefused?
    ensures !HasPending(Next(s, step).broker, step.session)
  {
    hide HasPending, Sound, SessionAfter, TurnsAfter, SessionOk, OneTurn;
    var b := s.broker;
    match step
    case StartThrows(i) => CancelledSessionKeeps(b, i, "startup_failed");
    case RegistrationRefused(i) => CancelledSessionKeeps(b, i, "startup_failed");
    case Cancel(i) => CancelledSessionKeeps(b, i, "session_cancelled");
    case ProcessExits(i, _) => CancelledSessionKeeps(b, i, "process_exited");
    case Close(i, reason) => CancelledSessionKeeps(b, i, reason);
    case _ =>
  }

  // ---------------------------------------------------------------- the status of a session at work

  /** In every run, a session whose turn is under way is prompting or awaiting permission unless it is
      being cancelled or closed, and one that is cancelling has been asked to. */
  lemma WorkIsShown(steps: seq<Step>, i: nat)
    requires i < |Run(steps).sessions|
    ensures var o := Run(steps).sessions[i];
            && (o.live && o.activeTurn.Some? && !o.cancelRequested && !IsClosing(o) ==>
                  o.status == Prompting || o.status == AwaitingPermission)
            && (o.status == Cancelling ==> o.cancelRequested)
  {
    hide Run;
    RunKeeps(steps);
    assert SessionOk(Run(steps).sessions[i]);
  }

  /** A prompt that is accepted makes the session prompting, with a turn of its own, and can be cancelled. */
  lemma PromptOutcome(s: State, i: nat)
    requires i < |s.sessions| && s.sessions[i].live && s.sessions[i].status == Ready
    ensures var s' := Next(s, Prompt(i));
            && s'.turns == s.turns + [Turn(i, true)] && |s'.sessions| == |s.sessions|
            && s'.sessions[i].status == s'.sessions[i].shown == Prompting
            && s'.sessions[i].activeTurn == Some(|s.turns|) && !s'.sessions[i].cancelRequested
            && Enabled(s', Cancel(i)) && !Enabled(s', Prompt(i))
  {
  }

  /** A turn that ends as the current one leaves its session ready if it succeeded or was cancelled, and
      failed otherwise; the end of any other turn changes no session. */
  lemma TurnOutcome(s: State, t: nat, succeeds: bool)
    requires Enabled(s, PromptSettles(t, succeeds))
    ensures var s' := Next(s, PromptSettles(t, succeeds));
            var i := s.turns[t].session;
            var o := s.sessions[i];
            && |s'.sessions| == |s.sessions|
            && (o.live && o.activeTurn == Some(t) && !IsClosing(o) ==>
                  && s'.sessions[i].status == s'.sessions[i].shown
                  && s'.sessions[i].status == (if succeeds || o.cancelRequested then Ready else Failed)
                  && s'.sessions[i].activeTurn.None? && !s'.sessions[i].cancelRequested)
            && (!o.live || o.activeTurn != Some(t) ==> s'.sessions == s.sessions)
  {
  }

  /** An accepted answer to a session that awaits permission: it prompts again if and only if nothing else
      is pending, and can be cancelled either way. */
  lemma AnswerOutcome(s: State, i: nat, r: nat, option: string)
    requires Enabled(s, Respond(i, r, option)) && s.sessions[i].status == AwaitingPermission
    ensures var s' := Next(s, Respond(i, r, option));
            && |s'.sessions| == |s.sessions| && Enabled(s', Cancel(i))
            && s'.sessions[i].status == (if HasPending(s'.broker, i) then AwaitingPermission else Prompting)
  {
    hide Responded, HasPending, Refused;
  }

  /** A request to an open session makes it await permission; a timeout leaves it so if and only if
      something else is pending. */
  lemma PermissionOutcome(s: State, step: Step)
    requires Enabled(s, step) && (step.Timeout? || (step.Ask? && step.reviewable))
    requires s.sessions[Subject(s, step)].live && !IsClosing(s.sessions[Subject(s, step)])
    ensures var s', i := Next(s, step), Subject(s, step);
            && |s'.sessions| == |s.sessions| && s'.sessions[i].shown == s'.sessions[i].status
            && s'.sessions[i].status ==
               if step.Ask? || HasPending(s'.broker, i) then AwaitingPermission else Prompting
  {
    hide TimedOut, Asked, HasPending;
  }

  /** A cancel is shown at once, and a close that has begun is shown until it is through. */
  lemma EndingOutcome(s: State, step: Step)
    requires Enabled(s, step) && (step.Cancel? || step.Close? || step.ProcessExits? || step.RuntimeClosed?)
    ensures var s', i := Next(s, step), step.session;
            && |s'.sessions| == |s.sessions| && s'.sessions[i].shown == s'.sessions[i].status
            && s'.sessions[i].status ==
               (if step.Cancel? then Cancelling else if step.Close? then Closing
                else if step.ProcessExits? then Failed else Closed)
            && (s'.sessions[i].live <==> !step.RuntimeClosed? && s.sessions[i].live)
            && (step.Cancel? ==> s'.sessions[i].cancelRequested)
            && (step.ProcessExits? ==> s'.sessions[i].activeTurn.None? && !s'.sessions[i].registered)
  {
    hide CancelledSession;
  }

  // ---------------------------------------------------------------- awaiting means pending

  ghost predicate AwaitingIsPending(s: State)
  {
    forall i :: 0 <= i < |s.sessions| && s.sessions[i].status == AwaitingPermission && s.sessions[i].live ==>
      HasPending(s.broker, i)
  }

  lemma OthersStayPending(s: State, step: Step, j: nat)
    requires Inv(s) && Enabled(s, step) && Subject(s, step) != j && HasPending(s.broker, j)
    ensures HasPending(BrokerAfter(s, step), j)
  {
    hide Sound, SessionOk, OneTurn;
    var b := s.broker;
    var r: nat :| r in b.pending && r < |b.requests| && b.requests[r].session == j;
    match step
    case StartThrows(i) => CancelledUpToKeeps(b, |b.requests|, i, "startup_failed");
    case RegistrationRefused(i) => CancelledUpToKeeps(b, |b.requests|, i, "startup_failed");
    case Cancel(i) => CancelledUpToKeeps(b, |b.requests|, i, "session_cancelled");
    case ProcessExits(i, _) => CancelledUpToKeeps(b, |b.requests|, i, "process_exited");
    case Close(i, reason) => CancelledUpToKeeps(b, |b.requests|, i, reason);
    case _ =>
    assert r in BrokerAfter(s, step).pending;
  }

  lemma OwnIsPending(s: State, step: Step)
    requires Inv(s) && Enabled(s, step)
    requires !step.Begin? ==>
               var o := s.sessions[Subject(s, step)];
               o.status == AwaitingPermission && o.live ==> HasPending(s.broker, Subject(s, step))
    ensures var o := SessionAfter(s, step);
            o.status == AwaitingPermission && o.live ==> HasPending(BrokerAfter(s, step), Subject(s, step))
  {
    hide Sound, OneTurn;
    if !step.Begin? { assert SessionOk(s.sessions[Subject(s, step)]); }
    if step.Ask? && step.reviewable {
      assert |s.broker.requests| in BrokerAfter(s, step).pending;
    }
  }

  /** A session is shown as awaiting permission only while one of its requests is pending. */
  lemma {:induction false} RunAwaitsPending(steps: seq<Step>)
    ensures AwaitingIsPending(Run(steps))
  {
    if steps != [] {
      var s, step := Run(steps[..|steps| - 1]), steps[|steps| - 1];
      RunAwaitsPending(steps[..|steps| - 1]);
      RunKeeps(steps[..|steps| - 1]);
      hide Inv, HasPending, SessionAfter, BrokerAfter, TurnsAfter;
      if Enabled(s, step) {
        OwnIsPending(s, step);
        forall j | 0 <= j < |s.sessions| && j != Subject(s, step) && HasPending(s.broker, j)
          ensures HasPending(BrokerAfter(s, step), j)
        {
          OthersStayPending(s, step, j);
        }
      }
    }
  }

  // ---------------------------------------------------------------- the session that stays busy

  /** Busy without a turn that could end: nothing but a close or a process exit gets it out. */
  predicate Stuck(o: Session)
  {
    o.live && o.phase == Started && !o.failed && !IsClosing(o) && o.status != Ready && o.activeTurn.None?
  }

  /** A step that reports a change of the pending permissions of session `i`. */
  predicate ReportsPending(s: State, step: Step, i: nat)
  {
    && Enabled(s, step)
    && ((step.Ask? && step.reviewable && step.session == i)
        || (step.Timeout? && s.broker.requests[step.request].session == i))
  }

  /** A session gets stuck exactly when a permission request is opened or times out while it is ready. */
  lemma GetsStuck(s: State, step: Step, i: nat)
    requires Inv(s) && i < |s.sessions| && !Stuck(s.sessions[i])
    ensures i < |Next(s, step).sessions|
    ensures Stuck(Next(s, step).sessions[i]) <==>
            s.sessions[i].status == Ready && s.sessions[i].phase == Started && ReportsPending(s, step, i)
  {
    hide HasPending, TimedOut, Responded, Refused, BrokerAfter, TurnsAfter, OneTurn, Sound;
    assert SessionOk(s.sessions[i]);
  }

  lemma StaysStuck(s: State, step: Step, i: nat)
    requires Inv(s) && i < |s.sessions| && Stuck(s.sessions[i])
    ensures i < |Next(s, step).sessions|
    ensures var o := Next(s, step).sessions[i]; Stuck(o) || o.failed || IsClosing(o)
  {
    hide HasPending, TimedOut, Responded, Refused, BrokerAfter, TurnsAfter, OneTurn, Sound;
    assert SessionOk(s.sessions[i]);
  }

  /** It does happen whenever a turn succeeds while a permission request of its session is open and
      that request then times out. */
  lemma StuckAfterTimeout(s: State, i: nat, t: nat, r: nat)
    requires Inv(s) && i < |s.sessions|
    requires s.sessions[i].phase == Started && s.sessions[i].live && !IsClosing(s.sessions[i])
    requires s.sessions[i].activeTurn == Some(t)
    requires r in s.broker.pending && r < |s.broker.requests| && s.broker.requests[r].session == i
    ensures var s' := Next(Next(s, PromptSettles(t, true)), Timeout(r));
            i < |s'.sessions| && Stuck(s'.sessions[i])
  {
    assert Outstanding(s.turns, t, i);
    assert Enabled(s, PromptSettles(t, true));
    var s1 := Next(s, PromptSettles(t, true));
    NextKeeps(s, PromptSettles(t, true));
    hide Inv, HasPending, TimedOut;
    assert s1.sessions[i].status == Ready && s1.broker == s.broker;
    assert ReportsPending(s1, Timeout(r), i);
    GetsStuck(s1, Timeout(r), i);
  }
}
