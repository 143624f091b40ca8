/**
 The code of the permission broker and of the session manager, one method for each stretch between two
 awaits. Each is proved to do to the fields what the state machines say, and to answer as they say.
 */
module AcpSessionManager {

  import opened Prelude
  import opened Permissions
  import opened AcpSessions

  class AcpPermissionBroker {
    var requests: seq<Request>
    var pending: set<nat>
    var answers: seq<Answer>
    var bus: seq<Event>

    constructor ()
      ensures Held() == NOTHING
    {
      requests, pending, answers, bus := [], {}, [], [];
    }

    function Held(): Broker
      reads this
    {
      Broker(requests, pending, answers, bus)
    }

    method Open(session: nat, options: seq<Choice>, reviewable: bool, reason: string) returns (r: nat)
      modifies this
      ensures Held() == Asked(old(Held()), session, options, reviewable, reason)
      ensures r == |old(requests)|
    {
      r := |requests|;
      requests := requests + [Request(session, options, reviewable)];
      if !reviewable {
        bus := bus + [Resolved(r, true, false, reason)];
        answers := answers + [Answer(r, RejectResponse(options), false)];
        return;
      }
      pending := pending + {r};
      bus := bus + [Requested(r)];
    }

    method Settle(r: nat, outcome: Outcome, event: Event)
      requires event.Resolved?
      modifies this
      ensures Held() == Settled(old(Held()), r, Answer(r, outcome, !event.automatic), event)
    {
      pending := pending - {r};
      answers := answers + [Answer(r, outcome, !event.automatic)];
      bus := bus + [event];
    }

    method OnTimeout(r: nat)
      requires r in pending ==> r < |requests|
      modifies this
      ensures Held() == TimedOut(old(Held()), r)
    {
      if r !in pending { return; }
      Settle(r, RejectResponse(requests[r].options), Resolved(r, true, false, "timeout"));
    }

    method Decide(session: nat, r: nat, option: string) returns (refusal: Option<Refusal>)
      requires r in pending ==> r < |requests|
      modifies this
      ensures refusal == Refused(old(Held()), session, r, option)
      ensures Held() == Responded(old(Held()), session, r, option)
    {
      if r !in pending || requests[r].session != session { return Some(NotFound); }
      if option == "" {
        Settle(r, Cancelled, Resolved(r, false, false, ""));
      } else {
        var chosen := WithId(requests[r].options, option);
        if chosen.None? { return Some(Invalid); }
        Settle(r, Selected(option), Resolved(r, false, Allows(chosen.value), ""));
      }
      return None;
    }

    method CancelAll(session: nat, reason: string)
      modifies this
      ensures Held() == CancelledSession(old(Held()), session, reason)
    {
      var n, i := |requests|, 0;
      while i < n
        invariant 0 <= i <= n == |requests|
        invariant Held() == CancelledUpTo(old(Held()), i, session, reason)
      {
        if i in pending && requests[i].session == session {
          Settle(i, Cancelled, Resolved(i, true, false, reason));
        }
        i := i + 1;
      }
    }
  }

  /** All sessions but `i` are as they were. */
  ghost predicate OthersKept(before: seq<Session>, after: seq<Session>, i: nat)
  {
    |before| == |after| && forall j :: 0 <= j < |before| && j != i ==> after[j] == before[j]
  }

  class AcpSessionManager {
    const broker: AcpPermissionBroker
    var sessions: seq<Session>
    var turns: seq<Turn>

    constructor ()
      ensures fresh(broker) && Now() == INITIAL
    {
      broker := new AcpPermissionBroker();
      sessions, turns := [], [];
    }

    function Now(): State
      reads this, broker
    {
      State(broker.Held(), sessions, turns)
    }

    method Set(i: nat, o: Session)
      requires i < |sessions|
      modifies this`sessions
      ensures sessions == old(sessions)[i := o]
    {
      sessions := sessions[i := o];
    }

    /** Changes a session and publishes its status. */
    method Publish(i: nat, o: Session)
      requires i < |sessions|
      modifies this`sessions
      ensures sessions == old(sessions)[i := Published(o)]
    {
      Set(i, o.(shown := o.status));
    }

    // -------------------------------------------------------------- starting

    method StartBegins() returns (i: nat)
      modifies this`sessions
      ensures Now() == Next(old(Now()), Begin) && i == |old(sessions)|
    {
      i := |sessions|;
      sessions := sessions + [Session(Launching, Starting, Starting, true, false, None, false, 0, false, false)];
    }

    method OnRuntime(i: nat, registers: bool)
      requires Enabled(Now(), AcpSessions.StartReturns(i))
      modifies this`sessions, broker
      ensures Now() == Next(old(Now()), if registers then AcpSessions.StartReturns(i) else RegistrationRefused(i))
    {
      if registers {
        Publish(i, sessions[i].(phase := Started, status := Ready, registered := true));
      } else {
        Set(i, sessions[i].(phase := Undoing, status := Ready));
        broker.CancelAll(i, "startup_failed");
        Set(i, sessions[i].(closes := 1));
      }
    }

    method OnStartFailed(i: nat, undone: bool)
      requires Enabled(Now(), if undone then StartUndone(i) else StartThrows(i))
      modifies this`sessions, broker
      ensures Now() == Next(old(Now()), if undone then StartUndone(i) else StartThrows(i))
    {
      if !undone { broker.CancelAll(i, "startup_failed"); }
      Publish(i, sessions[i].(phase := Abandoned, status := Failed));
      Set(i, sessions[i].(live := false));
    }

    // -------------------------------------------------------------- permissions

    method OnPendingChange(i: nat, pending: bool)
      requires i < |sessions|
      modifies this`sessions
      ensures sessions == old(sessions)[i := PendingChanged(old(sessions)[i], pending)]
    {
      var o := sessions[i];
      if !o.live || o.status == Closing || o.status == Closed { return; }
      Publish(i, o.(status := if pending then AwaitingPermission else Prompting));
    }

    method OnPermissionAsked(i: nat, options: seq<Choice>, reviewable: bool, reason: string)
      requires i < |sessions|
      modifies this`sessions, broker
      ensures Now() == Next(old(Now()), Ask(i, options, reviewable, reason))
    {
      if reviewable { OnPendingChange(i, true); }
      var _ := broker.Open(i, options, reviewable, reason);
    }

    method OnPermissionTimeout(r: nat)
      requires Enabled(Now(), Timeout(r))
      modifies this`sessions, broker
      ensures Now() == Next(old(Now()), Timeout(r))
    {
      var i := broker.requests[r].session;
      broker.OnTimeout(r);
      OnPendingChange(i, HasPending(broker.Held(), i));
    }

    method RespondPermission(i: nat, r: nat, option: string) returns (refusal: Option<Refusal>)
      requires r in broker.pending ==> r < |broker.requests|
      modifies this`sessions, broker
      ensures Now() == Next(old(Now()), Respond(i, r, option))
      ensures refusal.None? <==> old(Enabled(Now(), Respond(i, r, option)))
    {
      if i >= |sessions| || !sessions[i].live { return Some(NotFound); }
      refusal := broker.Decide(i, r, option);
      if refusal.Some? { return; }
      if !HasPending(broker.Held(), i) && sessions[i].status == AwaitingPermission {
        Publish(i, sessions[i].(status := Prompting));
      }
    }

    // -------------------------------------------------------------- turns

    method PromptBegins(i: nat) returns (turn: Option<nat>)
      modifies this
      ensures Now() == Next(old(Now()), Prompt(i))
      ensures turn == if old(Enabled(Now(), Prompt(i))) then Some(|old(turns)|) else None
      ensures OthersKept(old(sessions), sessions, i)
    {
      if i >= |sessions| || !sessions[i].live || sessions[i].status != Ready { return None; }
      var t := |turns|;
      Publish(i, sessions[i].(activeTurn := Some(t), cancelRequested := false, cancelledEarly := false,
                              status := Prompting));
      turns := turns + [Turn(i, true)];
      return Some(t);
    }

    method OnPromptSettled(t: nat, succeeds: bool)
      requires Enabled(Now(), PromptSettles(t, succeeds))
      modifies this
      ensures Now() == Next(old(Now()), PromptSettles(t, succeeds))
      ensures OthersKept(old(sessions), sessions, turns[t].session)
      ensures old(sessions)[turns[t].session].activeTurn != Some(t) ==> sessions == old(sessions)
    {
      var i := turns[t].session;
      turns := turns[t := turns[t].(outstanding := false)];
      var o := sessions[i];
      if !o.live || o.activeTurn != Some(t) { return; }
      var cancelled := o.cancelRequested;
      Set(i, o.(activeTurn := None, cancelRequested := false));
      if o.status == Closing || o.status == Closed { return; }
      if succeeds || cancelled {
        Publish(i, sessions[i].(status := Ready));
      } else {
        Publish(i, sessions[i].(status := Failed, failed := true));
      }
    }

    method CancelTurn(i: nat) returns (ok: bool)
      modifies this`sessions, broker
      ensures Now() == Next(old(Now()), Cancel(i)) && ok == old(Enabled(Now(), Cancel(i)))
      ensures OthersKept(old(sessions), sessions, i)
    {
      if i >= |sessions| || !MayCancel(sessions[i]) { return false; }
      var o := sessions[i];
      Publish(i, o.(cancelRequested := true, status := Cancelling,
                    cancelledEarly := o.cancelledEarly || o.phase == Launching));
      broker.CancelAll(i, "session_cancelled");
      return true;
    }

    // -------------------------------------------------------------- ends

    method HandleProcessExit(i: nat, expected: bool)
      modifies this`sessions, broker
      ensures Now() == Next(old(Now()), ProcessExits(i, expected))
      ensures OthersKept(old(sessions), sessions, i) && (expected ==> Now() == old(Now()))
    {
      if expected || i >= |sessions| || !sessions[i].live || IsClosing(sessions[i]) { return; }
      broker.CancelAll(i, "process_exited");
      var o := sessions[i];
      Publish(i, o.(activeTurn := None, cancelRequested := false, cancelledEarly := false, status := Failed,
                    registered := false,
                    failed := o.failed || o.phase != Launching));
    }

    method CloseBegins(i: nat, reason: string)
      requires i < |sessions| ==> sessions[i].phase == Started || !sessions[i].live
      modifies this`sessions, broker
      ensures Now() == Next(old(Now()), Close(i, reason))
      ensures OthersKept(old(sessions), sessions, i)
      ensures i < |sessions| && IsClosing(old(sessions)[i]) ==> Now() == old(Now())
    {
      if i >= |sessions| || !sessions[i].live || IsClosing(sessions[i]) { return; }
      Publish(i, sessions[i].(status := Closing));
      broker.CancelAll(i, reason);
    }

    method OnRuntimeCancelled(i: nat)
      requires Enabled(Now(), RuntimeCancelled(i))
      modifies this`sessions
      ensures Now() == Next(old(Now()), RuntimeCancelled(i))
    {
      Set(i, sessions[i].(closes := sessions[i].closes + 1));
    }

    method OnRuntimeClosed(i: nat)
      requires Enabled(Now(), RuntimeClosed(i))
      modifies this`sessions
      ensures Now() == Next(old(Now()), RuntimeClosed(i))
    {
      Publish(i, sessions[i].(status := Closed, registered := false));
      Set(i, sessions[i].(live := false));
    }
  }
}
