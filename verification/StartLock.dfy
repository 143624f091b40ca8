/**
 The per-subject start lock: a map from a subject to the last promise that was queued for it. Each
 call of `withStartLock` is a ticket. It waits for the ticket that was last when it came, runs, and
 in its `finally` takes itself out of the map if it is still the last.
 */
module StartLock {

  import opened Prelude

  /** `Settled` is the promise of the body, fulfilled or rejected; `Released` is past the `finally`. */
  datatype Phase = Waiting | Running | Settled | Released

  datatype Ticket = Ticket(subject: string, previous: Option<nat>, phase: Phase)
  {
    predicate Finished() { phase == Settled || phase == Released }
  }

  datatype Locks = Locks(last: map<string, nat>, tickets: seq<Ticket>)

  // ---------------------------------------------------------------- steps

  function Requested(locks: Locks, subject: string): Locks
  {
    var previous := if subject in locks.last then Some(locks.last[subject]) else None;
    Locks(locks.last[subject := |locks.tickets|], locks.tickets + [Ticket(subject, previous, Waiting)])
  }

  /** A body starts when the promise before it is settled either way, or there was none. */
  predicate MayBegin(locks: Locks, t: nat)
  {
    && t < |locks.tickets| && locks.tickets[t].phase == Waiting
    && (locks.tickets[t].previous.Some? ==>
          var p := locks.tickets[t].previous.value;
          p < |locks.tickets| && locks.tickets[p].Finished())
  }

  function WithPhase(locks: Locks, t: nat, phase: Phase): Locks
    requires t < |locks.tickets|
  {
    locks.(tickets := locks.tickets[t := locks.tickets[t].(phase := phase)])
  }

  /** The promise of the body is settled, by a value or by an error. */
  function SettledBy(locks: Locks, t: nat): Locks
  {
    if t < |locks.tickets| then WithPhase(locks, t, Settled) else locks
  }

  function ReleasedBy(locks: Locks, t: nat): Locks
    requires t < |locks.tickets|
  {
    var subject := locks.tickets[t].subject;
    var locks' := WithPhase(locks, t, Released);
    if subject in locks.last && locks.last[subject] == t then locks'.(last := locks.last - {subject}) else locks'
  }

  datatype Step = Request(subject: string) | Begin(t: nat) | Settle(t: nat, ok: bool) | Release(t: nat)

  predicate Enabled(locks: Locks, step: Step)
  {
    match step
    case Request(_) => true
    case Begin(t) => MayBegin(locks, t)
    case Settle(t, _) => t < |locks.tickets| && locks.tickets[t].phase == Running
    case Release(t) => t < |locks.tickets| && locks.tickets[t].phase == Settled
  }

  /** A body that throws settles its ticket as one that returns does. A step that cannot be taken
      changes nothing. */
  function Next(locks: Locks, step: Step): Locks
  {
    if !Enabled(locks, step) then locks
    else
      match step
      case Request(subject) => Requested(locks, subject)
      case Begin(t) => WithPhase(locks, t, Running)
      case Settle(t, ok) => SettledBy(locks, t)
      case Release(t) => ReleasedBy(locks, t)
  }

  function Run(steps: seq<Step>): Locks
  {
    if steps == [] then Locks(map[], []) else Next(Run(steps[..|steps| - 1]), steps[|steps| - 1])
  }

  // ---------------------------------------------------------------- invariant

  /** Whoever came before a ticket that has begun is done: at most one runs, in the order of coming. */
  ghost predicate InOrder(ts: seq<Ticket>)
  {
    forall i, j :: 0 <= i < j < |ts| && ts[i].subject == ts[j].subject ==>
      ts[j].phase == Waiting || ts[i].Finished()
  }

  /** A ticket waits for the latest earlier one of its subject, unless all of those are done. */
  ghost predicate LinkedAt(ts: seq<Ticket>, j: nat)
    requires j < |ts|
  {
    match ts[j].previous
    case None => forall i :: 0 <= i < j && ts[i].subject == ts[j].subject ==> ts[i].Finished()
    case Some(p) => p < j && ts[p].subject == ts[j].subject
                    && forall i :: p < i < j ==> ts[i].subject != ts[j].subject
  }

  ghost predicate IsNewest(ts: seq<Ticket>, t: nat)
    requires t < |ts|
  {
    forall i :: t < i < |ts| ==> ts[i].subject != ts[t].subject
  }

  /** The map names the newest ticket of a subject until that one is released. */
  ghost predicate LastIsNewest(locks: Locks)
  {
    && (forall s :: s in locks.last ==>
          var t := locks.last[s];
          t < |locks.tickets| && locks.tickets[t].subject == s && IsNewest(locks.tickets, t)
          && locks.tickets[t].phase != Released)
    && (forall t :: 0 <= t < |locks.tickets| && locks.tickets[t].subject !in locks.last ==>
          && locks.tickets[t].Finished()
          && (IsNewest(locks.tickets, t) ==> locks.tickets[t].phase == Released))
  }

  ghost predicate Inv(locks: Locks)
  {
    && InOrder(locks.tickets)
    && (forall j :: 0 <= j < |locks.tickets| ==> LinkedAt(locks.tickets, j))
    && LastIsNewest(locks)
  }

  lemma RequestKeeps(locks: Locks, subject: string)
    requires Inv(locks)
    ensures Inv(Requested(locks, subject))
  {
    var ts, ts', n := locks.tickets, Requested(locks, subject).tickets, |locks.tickets|;
    assert forall i :: 0 <= i < n ==> ts'[i] == ts[i];
    forall j | 0 <= j < n ensures LinkedAt(ts', j) {
      assert LinkedAt(ts, j);
    }
    if subject in locks.last { assert IsNewest(ts, locks.last[subject]); }
    assert LinkedAt(ts', n);
  }

  lemma PhaseKeepsLinks(ts: seq<Ticket>, t: nat, phase: Phase, ts': seq<Ticket>)
    requires t < |ts| && forall j :: 0 <= j < |ts| ==> LinkedAt(ts, j)
    requires ts' == ts[t := ts[t].(phase := phase)]
    requires ts[t].Finished() ==> phase == Released
    ensures forall j :: 0 <= j < |ts| ==> LinkedAt(ts', j)
    ensures forall j :: 0 <= j < |ts| ==> (IsNewest(ts', j) <==> IsNewest(ts, j))
  {
    assert forall i :: 0 <= i < |ts| ==>
        ts'[i].subject == ts[i].subject && ts'[i].previous == ts[i].previous
        && (ts[i].Finished() ==> ts'[i].Finished());
    forall j | 0 <= j < |ts| ensures LinkedAt(ts', j) {
      assert LinkedAt(ts, j);
    }
  }

  /** When a ticket may begin, all that came before it are done. */
  lemma BeforeIsFinished(locks: Locks, t: nat)
    requires Inv(locks) && MayBegin(locks, t)
    ensures forall i :: 0 <= i < t && locks.tickets[i].subject == locks.tickets[t].subject ==>
              locks.tickets[i].Finished()
  {
    assert LinkedAt(locks.tickets, t);
  }

  lemma BeginKeeps(locks: Locks, t: nat)
    requires Inv(locks) && MayBegin(locks, t)
    ensures Inv(WithPhase(locks, t, Running))
  {
    PhaseKeepsLinks(locks.tickets, t, Running, WithPhase(locks, t, Running).tickets);
    BeforeIsFinished(locks, t);
  }

  lemma SettleKeeps(locks: Locks, t: nat)
    requires Inv(locks) && t < |locks.tickets| && locks.tickets[t].phase == Running
    ensures Inv(SettledBy(locks, t))
  {
    PhaseKeepsLinks(locks.tickets, t, Settled, SettledBy(locks, t).tickets);
  }

  lemma ReleaseKeeps(locks: Locks, t: nat)
    requires Inv(locks) && t < |locks.tickets| && locks.tickets[t].phase == Settled
    ensures Inv(ReleasedBy(locks, t))
  {
    PhaseKeepsLinks(locks.tickets, t, Released, ReleasedBy(locks, t).tickets);
  }

  lemma StepKeeps(locks: Locks, step: Step)
    requires Inv(locks)
    ensures Inv(Next(locks, step))
  {
    if Enabled(locks, step) {
      match step
      case Request(subject) => RequestKeeps(locks, subject);
      case Begin(t) => BeginKeeps(locks, t);
      case Settle(t, _) => SettleKeeps(locks, t);
      case Release(t) => ReleaseKeeps(locks, t);
    }
  }

  lemma {:induction false} RunKeeps(steps: seq<Step>)
    ensures Inv(Run(steps))
  {
    if steps != [] {
      RunKeeps(steps[..|steps| - 1]);
      StepKeeps(Run(steps[..|steps| - 1]), steps[|steps| - 1]);
    }
  }

  // ---------------------------------------------------------------- what the lock promises

  /** Two bodies of one subject never run at the same time. */
  lemma MutualExclusion(steps: seq<Step>, i: nat, j: nat)
    requires var ts := Run(steps).tickets;
             i < |ts| && j < |ts| && ts[i].subject == ts[j].subject && ts[i].phase == ts[j].phase == Running
    ensures i == j
  {
    RunKeeps(steps);
  }

  /** A body that has begun came after only finished ones: first come, first served. */
  lemma FirstComeFirstServed(steps: seq<Step>, i: nat, j: nat)
    requires var ts := Run(steps).tickets;
             i < j < |ts| && ts[i].subject == ts[j].subject && ts[j].phase != Waiting
    ensures Run(steps).tickets[i].Finished()
  {
    RunKeeps(steps);
  }

  /** A waiting body is held up by one that runs, or the first in line may begin: no lock-out, no
      matter how the bodies before it ended. */
  lemma {:induction false} SomeoneMayGo(steps: seq<Step>, t: nat) returns (next: nat)
    requires t < |Run(steps).tickets| && Run(steps).tickets[t].phase == Waiting
    ensures next <= t && Run(steps).tickets[next].subject == Run(steps).tickets[t].subject
    ensures Run(steps).tickets[next].phase == Running || MayBegin(Run(steps), next)
    decreases t
  {
    RunKeeps(steps);
    var ts := Run(steps).tickets;
    assert LinkedAt(ts, t);
    next := t;
    if ts[t].previous.Some? {
      var p := ts[t].previous.value;
      if ts[p].phase == Waiting {
        next := SomeoneMayGo(steps, p);
      } else if ts[p].phase == Running {
        next := p;
      }
    }
  }

  /** The map has no entry for a subject exactly when every call for it is through: all bodies are
      done, and the newest call has run its `finally`. */
  lemma EntryAbsentExactly(steps: seq<Step>, subject: string)
    ensures var locks := Run(steps);
            subject !in locks.last <==>
            forall t :: 0 <= t < |locks.tickets| && locks.tickets[t].subject == subject ==>
              locks.tickets[t].Finished()
              && (IsNewest(locks.tickets, t) ==> locks.tickets[t].phase == Released)
  {
    RunKeeps(steps);
  }
}
