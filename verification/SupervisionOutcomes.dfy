/**
 What `start` and `ensure` do, said over the maps, the children and the calls alone: when a worker is
 started, kept, stopped first, or refused, and what is left of a call that fails.
 */
module SupervisionOutcomes {

  import opened Prelude
  import opened Supervision
  import StartLock

  /** There is a managed entry under the key whose child has not exited. */
  ghost predicate Runs(s: State, key: Key)
  {
    key in s.managed && s.managed[key] < |s.children| && !s.children[s.managed[key]].exited
  }

  /** Of all calls only `ticket` has changed, and is now `job`. */
  ghost predicate JobIs(s: State, s': State, ticket: nat, job: Job)
  {
    |s'.jobs| == |s.jobs| && ticket < |s.jobs| && s'.jobs[ticket] == job
    && forall j :: 0 <= j < |s.jobs| && j != ticket ==> s'.jobs[j] == s.jobs[j]
  }

  ghost predicate MapsSame(s: State, s': State)
  {
    s'.managed == s.managed && s'.registered == s.registered && s'.quitting == s.quitting && s'.cleared == s.cleared
  }

  /** The task is done and nothing else has happened. */
  ghost predicate OnlyTaskGoes(s: State, s': State, ticket: nat)
    requires ticket < |s.jobs| && s.jobs[ticket].todo != []
  {
    && MapsSame(s, s') && s'.children == s.children && s'.leases == s.leases
    && JobIs(s, s', ticket, Job(s.jobs[ticket].subject, s.jobs[ticket].todo[1..], Idle))
  }

  /** The whole call has thrown, given its lock on, and left nothing behind but `leases`. */
  ghost predicate CallFails(s: State, s': State, ticket: nat, leases: map<Key, nat>)
    requires ticket < |s.jobs|
  {
    && MapsSame(s, s') && s'.children == s.children && s'.leases == leases
    && JobIs(s, s', ticket, Job(s.jobs[ticket].subject, [], Idle))
    && ticket < |s'.locks.tickets| && s'.locks.tickets[ticket].phase == StartLock.Settled
  }

  /** There is one more child, with this key and its lease, and the call waits for it. */
  ghost predicate ChildIsStarted(s: State, s': State, ticket: nat, key: Key)
    requires ticket < |s.jobs|
  {
    var n := |s.children|;
    && MapsSame(s, s')
    && s'.children == s.children + [Child(key, ticket, Spawning, false, false, false, false, false)]
    && s'.leases == s.leases[key := n]
    && JobIs(s, s', ticket, Job(s.jobs[ticket].subject, s.jobs[ticket].todo, Starting(n)))
  }

  /** No running entry of the subject has a domain that overlaps `domain`. */
  ghost predicate IsFree(s: State, subject: string, domain: Domain)
  {
    forall d :: Runs(s, Key(subject, d)) ==> d != All && domain != All && d != domain
  }

  /** Running entries of the subject serve all of `domain`. */
  ghost predicate IsServed(s: State, subject: string, domain: Domain)
  {
    || Runs(s, Key(subject, domain)) || Runs(s, Key(subject, All))
    || (domain == All && Runs(s, Key(subject, Cycle)) && Runs(s, Key(subject, Channel)))
  }

  /** What starting a domain comes to. */
  ghost predicate StartsAs(s: State, s': State, ticket: nat, domain: Domain, launch: Launch)
    requires ticket < |s.jobs| && s.jobs[ticket].todo != []
  {
    var subject := s.jobs[ticket].subject;
    var key := Key(subject, domain);
    && (ChildIsStarted(s, s', ticket, key) <==> IsFree(s, subject, domain) && launch == Spawned)
    && (IsServed(s, subject, domain) ==> OnlyTaskGoes(s, s', ticket))
    && (!IsServed(s, subject, domain) && !IsFree(s, subject, domain) ==> CallFails(s, s', ticket, s.leases))
    && (IsFree(s, subject, domain) && launch != Spawned ==>
          CallFails(s, s', ticket, if launch == SpawnThrows then s.leases - {key} else s.leases))
  }

  lemma DomainsAre(d: Domain)
    ensures d == All || d == Cycle || d == Channel
  {
  }

  lemma FreeIsNoOverlap(s: State, subject: string, domain: Domain)
    ensures IsFree(s, subject, domain) <==> !Overlapping(s, subject, domain)
    ensures IsServed(s, subject, domain) <==> Covered(s, subject, domain)
    ensures IsServed(s, subject, domain) ==> !IsFree(s, subject, domain)
  {
    forall d ensures Runs(s, Key(subject, d)) <==> Live(s, Key(subject, d)) { DomainsAre(d); }
    if !Overlapping(s, subject, domain) {
      forall d | Runs(s, Key(subject, d)) ensures d != All && domain != All && d != domain {
        DomainsAre(d);
        DomainsAre(domain);
      }
    }
  }

  lemma FailedCall(s: State, ticket: nat, leases: map<Key, nat>)
    requires Holds(s, ticket)
    ensures CallFails(s, JobFailed(s, ticket).(leases := leases), ticket, leases)
  {
  }

  lemma DoneTask(s: State, ticket: nat)
    requires Holds(s, ticket) && s.jobs[ticket].todo != []
    ensures OnlyTaskGoes(s, TaskDone(s, ticket), ticket)
  {
  }

  lemma StartBegunIs(s: State, ticket: nat, domain: Domain, launch: Launch)
    requires Holds(s, ticket) && s.jobs[ticket].todo != []
    ensures StartsAs(s, StartBegun(s, ticket, domain, launch), ticket, domain, launch)
  {
    var key := Key(s.jobs[ticket].subject, domain);
    FreeIsNoOverlap(s, s.jobs[ticket].subject, domain);
    FailedCall(s, ticket, s.leases);
    FailedCall(s, ticket, s.leases - {key});
    DoneTask(s, ticket);
    assert JobFailed(s, ticket).(leases := s.leases) == JobFailed(s, ticket);
    hide IsFree, IsServed, Covered, Overlapping, CallFails, OnlyTaskGoes;
  }

  /** A holder of the lock that starts a domain: a child is started if and only if no running entry of
      the subject overlaps it and nothing outside is in the way; if it is served already only the task
      goes; otherwise the call fails. */
  lemma StartOutcome(s: State, ticket: nat, domain: Domain, health: Health, pidMatches: bool, launch: Launch)
    requires Enabled(s, Advance(ticket, health, pidMatches, launch)) && s.jobs[ticket].todo[0] == Start(domain)
    ensures StartsAs(s, Next(s, Advance(ticket, health, pidMatches, launch)), ticket, domain, launch)
  {
    hide StartsAs, StartBegun;
    StartBegunIs(s, ticket, domain, launch);
  }

  /** The child is being stopped and renews its lease no longer; the call waits to start `domain`. */
  ghost predicate StopsFirst(s: State, s': State, ticket: nat, domain: Domain, token: nat)
    requires ticket < |s.jobs| && s.jobs[ticket].todo != []
  {
    && MapsSame(s, s') && s'.leases == s.leases
    && |s'.children| == |s.children| && token < |s.children|
    && s'.children[token] == s.children[token].(stopping := true, timer := s'.children[token].timer)
    && (s'.children[token].timer ==> s.children[token].timer && s.children[token].stopping)
    && (forall t :: 0 <= t < |s.children| && t != token ==> s'.children[t] == s.children[t])
    && JobIs(s, s', ticket,
             Job(s.jobs[ticket].subject, [Start(domain)] + s.jobs[ticket].todo[1..], Stopping(token)))
  }

  /** The running entry that serves a single domain: its own, or else that for all. */
  ghost predicate Serves(s: State, subject: string, domain: Domain, token: nat)
  {
    if Runs(s, Key(subject, domain)) then s.managed[Key(subject, domain)] == token
    else Runs(s, Key(subject, All)) && s.managed[Key(subject, All)] == token
  }

  lemma CoveringServes(s: State, subject: string, domain: Domain)
    ensures Covering(s, subject, domain).Some? <==> Runs(s, Key(subject, domain)) || Runs(s, Key(subject, All))
    ensures Covering(s, subject, domain).Some? ==>
              && Serves(s, subject, domain, Covering(s, subject, domain).value)
              && Covering(s, subject, domain).value < |s.children|
  {
  }

  lemma RestartIs(s: State, ticket: nat, domain: Domain, token: nat, pidMatches: bool)
    requires Holds(s, ticket) && s.jobs[ticket].todo != [] && token < |s.children|
    ensures var s' := RestartBegun(s, ticket, domain, token, pidMatches);
            if pidMatches then StopsFirst(s, s', ticket, domain, token) else CallFails(s, s', ticket, s.leases)
  {
  }

  /** A holder of the lock that ensures a domain. A fresh worker is kept, and so is a stale one that is
      not ours; a stale or zombie one of ours is stopped first; and with none, or a zombie that is not
      ours, the domain is started. */
  lemma EnsureOutcome(s: State, ticket: nat, domain: Domain, health: Health, pidMatches: bool, launch: Launch)
    requires Enabled(s, Advance(ticket, health, pidMatches, launch)) && s.jobs[ticket].todo[0] == Ensure(domain)
    ensures var s' := Next(s, Advance(ticket, health, pidMatches, launch));
            var subject := s.jobs[ticket].subject;
            var ours := Runs(s, Key(subject, domain)) || Runs(s, Key(subject, All));
            && (health == Fresh || (health == Stale && !ours) ==> OnlyTaskGoes(s, s', ticket))
            && (ours && (health == Stale || health == Zombie) ==>
                  forall token :: Serves(s, subject, domain, token) ==>
                    if pidMatches then StopsFirst(s, s', ticket, domain, token) else CallFails(s, s', ticket, s.leases))
            && (health == Missing || (health == Zombie && !ours) ==> StartsAs(s, s', ticket, domain, launch))
  {
    var subject := s.jobs[ticket].subject;
    CoveringServes(s, subject, domain);
    hide StartsAs, StartBegun, RestartBegun, StopsFirst, CallFails;
    match EnsureChoice(s, subject, domain, health)
    case Keep =>
    case Restart(token) => RestartIs(s, ticket, domain, token, pidMatches);
    case StartNew => StartBegunIs(s, ticket, domain, launch);
  }

  /** In every run only the two single domains are ensured. */
  lemma {:induction false} EnsuresAreSingle(steps: seq<Step>, ticket: nat, k: nat)
    requires ticket < |Run(steps).jobs| && k < |Run(steps).jobs[ticket].todo|
    ensures Run(steps).jobs[ticket].todo[k].Ensure? ==> Run(steps).jobs[ticket].todo[k].domain != All
  {
    RunTasksOk(steps);
  }

  ghost predicate TodoOk(todo: seq<Task>)
  {
    forall k :: 0 <= k < |todo| && todo[k].Ensure? ==> todo[k].domain != All
  }

  ghost predicate TasksOk(jobs: seq<Job>)
  {
    forall j :: 0 <= j < |jobs| ==> TodoOk(jobs[j].todo)
  }

  lemma {:induction false} RunTasksOk(steps: seq<Step>)
    ensures TasksOk(Run(steps).jobs)
  {
    hide TasksOk, Next;
    if steps == [] {
      NoTasks();
    } else {
      RunTasksOk(steps[..|steps| - 1]);
      StepTasksOk(Run(steps[..|steps| - 1]), steps[|steps| - 1]);
    }
  }

  lemma NoTasks()
    ensures TasksOk([])
  {
  }

  lemma JobTasksOk(s: State, ticket: nat, todo: seq<Task>, at: At)
    requires TasksOk(s.jobs) && ticket < |s.jobs| && TodoOk(todo)
    ensures TasksOk(WithJob(s, ticket, todo, at).jobs)
  {
  }

  lemma TodosOk(s: State, ticket: nat, domain: Domain)
    requires TasksOk(s.jobs) && ticket < |s.jobs|
    ensures var todo := s.jobs[ticket].todo;
            && TodoOk(todo) && TodoOk([]) && (todo != [] ==> TodoOk(todo[1..]) && TodoOk([Start(domain)] + todo[1..]))
            && TodoOk([Start(domain)]) && TodoOk(if domain == All then [Ensure(Cycle), Ensure(Channel)]
                                                 else [Ensure(domain)])
  {
  }

  lemma CallTasksOk(s: State, ticket: nat)
    requires TasksOk(s.jobs) && ticket < |s.jobs|
    ensures TasksOk(JobFailed(s, ticket).jobs) && TasksOk(TaskDone(s, ticket).jobs)
  {
    hide TasksOk, TodoOk, WithJob;
    TodosOk(s, ticket, All);
    var todo := s.jobs[ticket].todo;
    JobTasksOk(s, ticket, [], Idle);
    if todo != [] { JobTasksOk(s, ticket, todo[1..], Idle); }
    SameJobs(s, ticket);
  }

  lemma SameJobs(s: State, ticket: nat)
    requires ticket < |s.jobs|
    ensures JobFailed(s, ticket).jobs == WithJob(s, ticket, [], Idle).jobs
    ensures TaskDone(s, ticket).jobs
            == WithJob(s, ticket, if s.jobs[ticket].todo == [] then [] else s.jobs[ticket].todo[1..], Idle).jobs
  {
  }

  lemma RequestTasksOk(s: State, subject: string, todo: seq<Task>)
    requires TasksOk(s.jobs) && TodoOk(todo)
    ensures TasksOk(Requested(s, subject, todo).jobs)
  {
  }

  lemma StartTasksOk(s: State, ticket: nat, domain: Domain, launch: Launch)
    requires TasksOk(s.jobs) && ticket < |s.jobs|
    ensures TasksOk(StartBegun(s, ticket, domain, launch).jobs)
  {
    CallTasksOk(s, ticket);
    TodosOk(s, ticket, domain);
    JobTasksOk(s, ticket, s.jobs[ticket].todo, Starting(|s.children|));
    hide TasksOk, TodoOk, Covered, Overlapping;
  }

  lemma RestartTasksOk(s: State, ticket: nat, domain: Domain, token: nat, pidMatches: bool)
    requires TasksOk(s.jobs) && ticket < |s.jobs| && s.jobs[ticket].todo != []
    ensures TasksOk(RestartBegun(s, ticket, domain, token, pidMatches).jobs)
  {
    CallTasksOk(s, ticket);
    TodosOk(s, ticket, domain);
    if token < |s.children| {
      JobTasksOk(StopBegun(s, token), ticket, [Start(domain)] + s.jobs[ticket].todo[1..], Stopping(token));
    }
    hide TasksOk, TodoOk;
  }

  lemma StepTasksOk(s: State, step: Step)
    requires TasksOk(s.jobs)
    ensures TasksOk(Next(s, step).jobs)
  {
    hide TasksOk, TodoOk, EnsureChoice, StartBegun, RestartBegun, JobFailed, TaskDone, Requested, WithJob;
    if Enabled(s, step) {
      match step
      case RequestStart(subject, domain) =>
        NewTodosOk(domain);
        RequestTasksOk(s, subject, [Start(domain)]);
      case RequestEnsure(subject, domain) =>
        NewTodosOk(domain);
        RequestTasksOk(s, subject, if domain == All then [Ensure(Cycle), Ensure(Channel)] else [Ensure(domain)]);
      case Advance(ticket, health, pidMatches, launch) =>
        CallTasksOk(s, ticket);
        match s.jobs[ticket].todo[0] {
          case Start(domain) => StartTasksOk(s, ticket, domain, launch);
          case Ensure(domain) =>
            StartTasksOk(s, ticket, domain, launch);
            match EnsureChoice(s, s.jobs[ticket].subject, domain, health) {
              case Keep =>
              case Restart(token) => RestartTasksOk(s, ticket, domain, token, pidMatches);
              case StartNew =>
            }
        }
      case SpawnEvent(t, ok, renewed) =>
        CallTasksOk(WithChild(s, t, s.children[t].(stage := Failed)), s.children[t].ticket);
      case BootEvent(t, ok) => CallTasksOk(WithChild(s, t, s.children[t].(stage := Started)), s.children[t].ticket);
      case ChildEnded(t) => CallTasksOk(WithChild(s, t, s.children[t].(stage := Failed)), s.children[t].ticket);
      case StopReturned(ticket) =>
        TodosOk(s, ticket, All);
        JobTasksOk(s, ticket, s.jobs[ticket].todo, Idle);
      case _ =>
    }
  }

  lemma NewTodosOk(domain: Domain)
    ensures TodoOk([Start(domain)]) && TodoOk(if domain == All then [Ensure(Cycle), Ensure(Channel)]
                                              else [Ensure(domain)])
  {
  }

  /** A call that comes in waits for the lock with its tasks: one, or for `ensure` of all domains two, the
      cycle worker first. */
  lemma RequestOutcome(s: State, step: Step)
    requires step.RequestStart? || step.RequestEnsure?
    ensures var s' := Next(s, step);
            var n := |s.jobs|;
            && MapsSame(s, s') && s'.children == s.children && s'.leases == s.leases
            && |s'.jobs| == n + 1 && s'.jobs[..n] == s.jobs
            && s'.jobs[n].subject == step.subject && s'.jobs[n].at == Idle
            && s'.jobs[n].todo ==
               if step.RequestStart? then [Start(step.domain)]
               else if step.domain != All then [Ensure(step.domain)] else [Ensure(Cycle), Ensure(Channel)]
  {
  }

  // ---------------------------------------------------------------- what becomes of a child

  /** An exited child is no longer running; nothing else changes until it closes. */
  lemma ExitOutcome(s: State, t: nat, key: Key)
    requires Enabled(s, Exit(t))
    ensures var s' := Next(s, Exit(t));
            && MapsSame(s, s') && s'.leases == s.leases && s'.jobs == s.jobs
            && s'.children == s.children[t := s.children[t].(exited := true)]
            && (Runs(s', key) <==> Runs(s, key) && s.managed[key] != t)
  {
  }

  /** From a shutdown on no child is entered, and when it is through nothing is registered. */
  lemma QuitOutcome(s: State, t: nat, renewed: bool)
    ensures var s' := Next(s, Quit);
            && s' == s.(quitting := true)
            && Next(s', QuitDone) == s'.(registered := map[], cleared := true)
            && (InStage(s', t, Spawning) ==> InStage(Next(s', SpawnEvent(t, true, renewed)), t, Refused)
                                             && Next(s', SpawnEvent(t, true, renewed)).managed == s.managed)
  {
  }

  /** How far a start gets is decided in the order of its steps. */
  lemma LaunchOutcome(o: Outside)
    ensures LaunchIn(o) == DiskConflict <==> o.conflict
    ensures LaunchIn(o) == LogsFail <==> !o.conflict && !(o.stdoutOpens && o.stderrOpens && o.modesSet)
    ensures var logs := !o.conflict && o.stdoutOpens && o.stderrOpens && o.modesSet;
            && (LaunchIn(o) == PrepareFails <==> logs && !o.prepares)
            && (LaunchIn(o) == LeaseFail <==> logs && o.prepares && !o.leaseMade)
            && (LaunchIn(o) == SpawnThrows <==> logs && o.prepares && o.leaseMade && !o.spawns)
            && (LaunchIn(o) == Spawned <==> logs && o.prepares && o.leaseMade && o.spawns)
  {
  }

  /** A renewal that fails is the last one of that start, and touches nothing else. */
  lemma RenewalOutcome(s: State, t: nat, renewed: bool)
    requires Enabled(s, LeaseTick(t, renewed))
    ensures var s' := Next(s, LeaseTick(t, renewed));
            && MapsSame(s, s') && s'.leases == s.leases && s'.jobs == s.jobs
            && |s'.children| == |s.children| && s'.children[t] == s.children[t].(timer := s'.children[t].timer)
            && (s'.children[t].timer <==> renewed)
            && (forall u :: 0 <= u < |s.children| && u != t ==> s'.children[u] == s.children[u])
  {
  }

  /** A stop marks the entry and ends its renewal; the entry goes only with the close of the child. */
  lemma StopOutcome(s: State, t: nat)
    requires Enabled(s, StopEntry(t))
    ensures var s' := Next(s, StopEntry(t));
            && MapsSame(s, s') && s'.leases == s.leases && s'.jobs == s.jobs
            && |s'.children| == |s.children| && s'.children[t].stopping
            && s'.children[t] == s.children[t].(stopping := true, timer := s'.children[t].timer)
            && (s'.children[t].timer ==> s.children[t].timer && s.children[t].stopping)
            && (forall u :: 0 <= u < |s.children| && u != t ==> s'.children[u] == s.children[u])
  {
  }

  /** The close of a child takes its own entry, registration and lease away, and ends its renewal. */
  lemma CloseOutcome(s: State, t: nat)
    requires Inv(s) && Enabled(s, Close(t))
    ensures var s' := Next(s, Close(t));
            && s'.children[t].closed && s'.jobs == s.jobs
            && (s.children[t].Entered() ==>
                  t !in s'.managed.Values && t !in s'.registered.Values && t !in s'.leases.Values
                      && !s'.children[t].timer)
            && (!s.children[t].Entered() ==> MapsSame(s, s') && s'.leases == s.leases)
  {
    CloseUndoes(s, t);
    NotAmong(s.managed, t);
    NotAmong(s.registered, t);
    LeaseGone(s, t);
    if s.children[t].Entered() { EnteredIsManaged(s, t); }
    hide Inv, WithoutOwner, LeaseRemoved;
  }

  lemma EnteredIsManaged(s: State, t: nat)
    requires Inv(s) && t < |s.children| && s.children[t].Entered()
    ensures s.children[t].key in s.managed && s.managed[s.children[t].key] == t
  {
    hide LeasesOk, JobsOk, DomainsOk;
  }

  lemma LeaseGone(s: State, t: nat)
    requires Inv(s) && t < |s.children|
    ensures t !in LeaseRemoved(s, s.children[t].key, t).Values
  {
    hide MapsOk, JobsOk, DomainsOk;
  }

  /** A child that did not spawn fails its call, with its lease gone. */
  lemma NoSpawnOutcome(s: State, t: nat, renewed: bool)
    requires Inv(s) && Enabled(s, SpawnEvent(t, false, renewed))
    ensures var s' := Next(s, SpawnEvent(t, false, renewed));
            var ticket := s.children[t].ticket;
            && MapsSame(s, s') && s'.children[t].stage == Failed && t !in s'.leases.Values
            && JobIs(s, s', ticket, Job(s.jobs[ticket].subject, [], Idle))
  {
    LeaseGone(s, t);
    hide Inv, LeaseRemoved;
  }

  /** One that did is managed, registered and renewed if and only if nothing is registered under its key,
      no shutdown is under way and the first renewal succeeds; otherwise both maps are as they were and
      the child has to end. */
  lemma SpawnOutcome(s: State, t: nat, renewed: bool)
    requires Inv(s) && Enabled(s, SpawnEvent(t, true, renewed))
    ensures var s', child := Next(s, SpawnEvent(t, true, renewed)), s.children[t];
            && s'.jobs == s.jobs
            && (!s.quitting && child.key !in s.registered && renewed ==>
                  && s'.managed == s.managed[child.key := t] && s'.registered == s.registered[child.key := t]
                  && s'.leases == s.leases && s'.children == s.children[t := child.(stage := Booting, timer := true)])
            && (s.quitting || child.key in s.registered || !renewed ==>
                  && s'.managed == s.managed && s'.registered == s.registered
                  && (InStage(s', t, Refused) || InStage(s', t, Failing)))
  {
    hide Inv, SpawnHeard, InStage;
    SpawnedStage(s, t);
    if !s.quitting && s.children[t].key !in s.registered && renewed {
      SpawnEnters(s, t);
    } else {
      SpawnRefused(s, t, renewed);
    }
  }

  lemma SpawnedStage(s: State, t: nat)
    requires InStage(s, t, Spawning)
    ensures t < |s.children| && s.children[t].ticket < |s.jobs|
  {
  }

  lemma SpawnEnters(s: State, t: nat)
    requires InStage(s, t, Spawning) && !s.quitting && s.children[t].key !in s.registered
    ensures var s', child := SpawnHeard(s, t, true, true), s.children[t];
            && s'.jobs == s.jobs && s'.leases == s.leases
            && s'.managed == s.managed[child.key := t] && s'.registered == s.registered[child.key := t]
            && s'.children == s.children[t := child.(stage := Booting, timer := true)]
  {
  }

  lemma SpawnRefused(s: State, t: nat, renewed: bool)
    requires Inv(s) && InStage(s, t, Spawning) && (s.quitting || s.children[t].key in s.registered || !renewed)
    ensures var s' := SpawnHeard(s, t, true, renewed);
            && s'.jobs == s.jobs && s'.managed == s.managed && s'.registered == s.registered
            && (InStage(s', t, Refused) || InStage(s', t, Failing))
  {
    if !s.quitting && s.children[t].key !in s.registered { SpawnFailureUndoes(s, t, true, false); }
    hide Inv, WithoutOwner, LeaseRemoved;
  }

  /** A worker that reports makes its task done and stays managed. */
  lemma BootOutcome(s: State, t: nat)
    requires Inv(s) && Enabled(s, BootEvent(t, true))
    ensures var s' := Next(s, BootEvent(t, true));
            var ticket := s.children[t].ticket;
            && MapsSame(s, s') && s'.leases == s.leases
            && s'.children == s.children[t := s.children[t].(stage := Started)]
            && s.jobs[ticket].todo != []
            && JobIs(s, s', ticket, Job(s.jobs[ticket].subject, s.jobs[ticket].todo[1..], Idle))
  {
    HolderOf(s, t);
    DoneTask(WithChild(s, t, s.children[t].(stage := Started)), s.children[t].ticket);
    hide Inv, TaskDone;
  }

  lemma HolderOf(s: State, t: nat)
    requires Inv(s) && t < |s.children| && s.children[t].InProgress()
    ensures Holds(s, s.children[t].ticket) && s.jobs[s.children[t].ticket].todo != []
  {
    hide MapsOk, LeasesOk, DomainsOk;
  }

  /** One that does not report leaves the maps, and its call waits for the child to end. */
  lemma BootFailureOutcome(s: State, t: nat)
    requires Inv(s) && Enabled(s, BootEvent(t, false))
    ensures var s' := Next(s, BootEvent(t, false));
            s'.jobs == s.jobs && s'.children[t].stage == Failing && t !in s'.managed.Values
  {
    BootFailureUndoes(s, t);
    hide Inv, WithoutOwner;
    NotAmong(s.managed, t);
  }

  lemma NotAmong(m: map<Key, nat>, t: nat)
    ensures t !in WithoutOwner(m, t).Values
  {
  }

  lemma FailureOutcome(s: State, t: nat)
    requires Inv(s) && Enabled(s, ChildEnded(t))
    ensures var s' := Next(s, ChildEnded(t));
            var ticket := s.children[t].ticket;
            && s'.children[t].stage == Failed && s'.managed == s.managed && s'.registered == s.registered
            && JobIs(s, s', ticket, Job(s.jobs[ticket].subject, [], Idle))
            && s'.locks.tickets[ticket].phase == StartLock.Settled
  {
    hide MapsOk, LeasesOk, DomainsOk;
  }
}
