/**
 The code of the daemon supervisor and of the process registry, one method for each stretch between
 two awaits. Each is proved to do to the fields what the state machine of `Supervision` says.
 */
module DaemonSupervisor {

  import opened Prelude
  import opened Supervision
  import StartLock

  /** The files that a start leaves open. */
  function Leaked(launch: Launch): int
  {
    if launch == PrepareFails then 2 else 0
  }

  /** A start that ends before it opens a file. */
  predicate Blocked(s: State, subject: string, domain: Domain)
  {
    Covered(s, subject, domain) || Overlapping(s, subject, domain)
  }

  /** All entries but the one under `key` are as they were. */
  ghost predicate OthersKept(before: map<Key, nat>, after: map<Key, nat>, key: Key)
  {
    before - {key} == after - {key}
  }

  class ManagedProcessRegistry {
    var entries: map<Key, nat>
    var shuttingDown: bool

    constructor ()
      ensures entries == map[] && !shuttingDown
    {
      entries, shuttingDown := map[], false;
    }

    /** Refuses while shutting down, and when the key is taken; the owner is whoever may call back. */
    method Register(key: Key, owner: nat) returns (ok: bool)
      modifies this`entries
      ensures ok == (!shuttingDown && key !in old(entries))
      ensures entries == if ok then old(entries)[key := owner] else old(entries)
    {
      if shuttingDown || key in entries { return false; }
      entries := entries[key := owner];
      return true;
    }

    /** The callback that `register` hands out deletes the key, whoever has it. */
    method Unregister(key: Key)
      modifies this`entries
      ensures entries == old(entries) - {key}
    {
      entries := entries - {key};
    }

    method Clear()
      modifies this`entries
      ensures entries == map[]
    {
      entries := map[];
    }
  }

  class Supervisor {
    const registry: ManagedProcessRegistry
    var startLocks: map<string, nat>
    var tickets: seq<StartLock.Ticket>
    var jobs: seq<Job>
    var children: seq<Child>
    var managed: map<Key, nat>
    var leases: map<Key, nat>
    var cleared: bool
    /** Log file descriptors that are open. */
    var openFiles: int

    constructor ()
      ensures fresh(registry) && openFiles == 0 && Now() == Run([])
    {
      registry := new ManagedProcessRegistry();
      startLocks, tickets, jobs, children := map[], [], [], [];
      managed, leases, cleared, openFiles := map[], map[], false, 0;
    }

    function Now(): State
      reads this, registry
    {
      State(StartLock.Locks(startLocks, tickets), jobs, children,
            managed, registry.entries, leases, registry.shuttingDown, cleared)
    }

    // -------------------------------------------------------------- the lock

    method Request(subject: string, todo: seq<Task>)
      modifies this`startLocks, this`tickets, this`jobs
      ensures Now() == Requested(old(Now()), subject, todo)
    {
      var previous := if subject in startLocks then Some(startLocks[subject]) else None;
      startLocks := startLocks[subject := |tickets|];
      tickets := tickets + [StartLock.Ticket(subject, previous, StartLock.Waiting)];
      jobs := jobs + [Job(subject, todo, Idle)];
    }

    method Start(subject: string, domain: Domain)
      modifies this`startLocks, this`tickets, this`jobs
      ensures Now() == Next(old(Now()), RequestStart(subject, domain))
    {
      Request(subject, [Task.Start(domain)]);
    }

    method Ensure(subject: string, domain: Domain)
      modifies this`startLocks, this`tickets, this`jobs
      ensures Now() == Next(old(Now()), RequestEnsure(subject, domain))
    {
      Request(subject, if domain == All then [Task.Ensure(Cycle), Task.Ensure(Channel)] else [Task.Ensure(domain)]);
    }

    method Begin(ticket: nat)
      requires StartLock.MayBegin(Now().locks, ticket)
      modifies this`tickets
      ensures Now() == Next(old(Now()), BeginJob(ticket))
    {
      tickets := tickets[ticket := tickets[ticket].(phase := StartLock.Running)];
    }

    method Release(ticket: nat)
      requires Enabled(Now(), ReleaseJob(ticket))
      modifies this`startLocks, this`tickets
      ensures Now() == Next(old(Now()), ReleaseJob(ticket))
    {
      var subject := tickets[ticket].subject;
      tickets := tickets[ticket := tickets[ticket].(phase := StartLock.Released)];
      if subject in startLocks && startLocks[subject] == ticket {
        startLocks := startLocks - {subject};
      }
    }

    method Throw(ticket: nat)
      requires ticket < |jobs|
      modifies this`tickets, this`jobs
      ensures Now() == JobFailed(old(Now()), ticket)
    {
      jobs := jobs[ticket := Job(jobs[ticket].subject, [], Idle)];
      if ticket < |tickets| { tickets := tickets[ticket := tickets[ticket].(phase := StartLock.Settled)]; }
    }

    method Return(ticket: nat)
      requires ticket < |jobs|
      modifies this`tickets, this`jobs
      ensures Now() == TaskDone(old(Now()), ticket)
    {
      var rest := if jobs[ticket].todo == [] then [] else jobs[ticket].todo[1..];
      jobs := jobs[ticket := Job(jobs[ticket].subject, rest, Idle)];
      if rest == [] && ticket < |tickets| {
        tickets := tickets[ticket := tickets[ticket].(phase := StartLock.Settled)];
      }
    }

    // -------------------------------------------------------------- starting

    /** Both log files, the preparation, the lease and the child, in this order. The files are closed on
        every exit but one: a preparation that throws leaves both open. */
    method LaunchChild(key: Key, outside: Outside) returns (launch: Launch)
      requires !outside.conflict
      modifies this`openFiles, this`leases
      ensures launch == LaunchIn(outside)
      ensures openFiles == old(openFiles) <==> outside.prepares || !LogsOpen(outside)
      ensures openFiles == old(openFiles) + Leaked(launch)
      ensures leases == if launch == SpawnThrows then old(leases) - {key}
                        else if launch == Spawned then old(leases)[key := |children|] else old(leases)
    {
      var stdout, stderr := false, false;
      if outside.stdoutOpens {
        stdout, openFiles := true, openFiles + 1;
        if outside.stderrOpens { stderr, openFiles := true, openFiles + 1; }
      }
      if !(stdout && stderr && outside.modesSet) {
        if stdout { openFiles := openFiles - 1; }
        if stderr { openFiles := openFiles - 1; }
        return LogsFail;
      }
      if !outside.prepares { return PrepareFails; }
      if !outside.leaseMade {
        openFiles := openFiles - 2;
        return LeaseFail;
      }
      leases := leases[key := |children|];
      if !outside.spawns {
        openFiles := openFiles - 2;
        if key in leases && leases[key] == |children| { leases := leases - {key}; }
        return SpawnThrows;
      }
      openFiles := openFiles - 2;
      return Spawned;
    }

    /** As many files are open afterwards as before, unless the start gets as far as its logs and the
        preparation throws. */
    method StartLocked(ticket: nat, domain: Domain, outside: Outside)
      requires ticket < |jobs|
      modifies this`tickets, this`jobs, this`children, this`leases, this`openFiles
      ensures openFiles == old(openFiles) <==>
              old(Blocked(Now(), jobs[ticket].subject, domain)) || LaunchIn(outside) != PrepareFails
      ensures Now() == StartBegun(old(Now()), ticket, domain, LaunchIn(outside))
    {
      var subject, key, token := jobs[ticket].subject, Key(jobs[ticket].subject, domain), |children|;
      if Covered(Now(), subject, domain) {
        Return(ticket);
        return;
      }
      if Overlapping(Now(), subject, domain) || outside.conflict {
        Throw(ticket);
        return;
      }
      var launch := LaunchChild(key, outside);
      if launch == Spawned {
        children := children + [Child(key, ticket, Spawning, false, false, false, false, false)];
        jobs := jobs[ticket := jobs[ticket].(at := Starting(token))];
      } else {
        Throw(ticket);
      }
    }

    /** The `spawn` or `error` event, up to the wait for the worker to report. */
    method OnSpawn(token: nat, ok: bool, renewed: bool)
      requires InStage(Now(), token, Spawning)
      modifies this`tickets, this`jobs, this`children, this`managed, this`leases, registry`entries
      ensures Now() == SpawnHeard(old(Now()), token, ok, renewed)
      ensures OthersKept(old(managed), managed, old(children)[token].key)
    {
      var child := children[token];
      if !ok {
        children := children[token := child.(stage := Failed)];
        RemoveLease(child.key, token);
        Throw(child.ticket);
        return;
      }
      var registered := registry.Register(child.key, token);
      if !registered {
        children := children[token := child.(stage := Refused)];
        return;
      }
      managed := managed[child.key := token];
      if renewed {
        children := children[token := child.(stage := Booting, timer := true)];
      } else {
        UndoEntry(token, child.(stage := Failing));
      }
    }

    method RemoveLease(key: Key, token: nat)
      modifies this`leases
      ensures leases == LeaseRemoved(old(Now()), key, token)
    {
      if key in leases && leases[key] == token { leases := leases - {key}; }
    }

    method UndoEntry(token: nat, child: Child)
      requires token < |children|
      modifies this`children, this`managed, this`leases, registry`entries
      ensures Now() == Removed(old(Now()), token, child)
    {
      if child.key in managed && managed[child.key] == token { managed := managed - {child.key}; }
      registry.Unregister(child.key);
      children := children[token := child.(timer := false)];
      RemoveLease(child.key, token);
    }

    /** `waitForStartup` returned, or threw. */
    method OnBoot(token: nat, ok: bool)
      requires InStage(Now(), token, Booting)
      modifies this`tickets, this`jobs, this`children, this`managed, this`leases, registry`entries
      ensures Now() == BootHeard(old(Now()), token, ok)
      ensures OthersKept(old(managed), managed, old(children)[token].key)
    {
      if ok {
        children := children[token := children[token].(stage := Started)];
        Return(children[token].ticket);
      } else {
        UndoEntry(token, children[token].(stage := Failing));
      }
    }

    /** The child of a failed start is gone: drop the lease and throw. */
    method OnChildEnded(token: nat)
      requires InStage(Now(), token, Refused) || InStage(Now(), token, Failing)
      modifies this`tickets, this`jobs, this`children, this`leases
      ensures Now() == FailureDone(old(Now()), token)
    {
      var child := children[token];
      RemoveLease(child.key, token);
      children := children[token := child.(stage := Failed)];
      Throw(child.ticket);
    }

    // -------------------------------------------------------------- ensure and stop

    method EnsureOne(ticket: nat, domain: Domain, health: Health, pidMatches: bool, outside: Outside)
      requires ticket < |jobs|
      modifies this`tickets, this`jobs, this`children, this`leases, this`openFiles
      ensures openFiles == old(openFiles) <==>
              || old(EnsureChoice(Now(), jobs[ticket].subject, domain, health)) != StartNew
              || old(Blocked(Now(), jobs[ticket].subject, domain)) || LaunchIn(outside) != PrepareFails
      ensures Now() == EnsureBegun(old(Now()), ticket, domain, health, pidMatches, LaunchIn(outside))
    {
      var owned := Covering(Now(), jobs[ticket].subject, domain);
      if health == Fresh {
        Return(ticket);
      } else if owned.Some? && (health == Stale || health == Zombie) {
        StopThenStart(ticket, domain, owned.value, pidMatches);
      } else if health == Stale {
        Return(ticket);
      } else {
        StartLocked(ticket, domain, outside);
      }
    }

    method StopThenStart(ticket: nat, domain: Domain, token: nat, pidMatches: bool)
      requires ticket < |jobs|
      modifies this`tickets, this`jobs, this`children
      ensures Now() == RestartBegun(old(Now()), ticket, domain, token, pidMatches)
    {
      if token >= |children| {
        Throw(ticket);
        return;
      }
      var owned := StopOwned(token, pidMatches);
      if !owned {
        Throw(ticket);
        return;
      }
      var todo := jobs[ticket].todo;
      jobs := jobs[ticket := Job(jobs[ticket].subject,
                                 [Task.Start(domain)] + (if todo == [] then [] else todo[1..]), Stopping(token))];
    }

    /** `stopEntry` up to its wait for the child: refused for a process that is not the entry's own, and
        nothing more for an entry that is being stopped already. */
    method StopOwned(token: nat, pidMatches: bool) returns (owned: bool)
      requires token < |children|
      modifies this`children
      ensures owned == pidMatches
      ensures Now() == if owned then StopBegun(old(Now()), token) else old(Now())
      ensures |children| == |old(children)|
      ensures forall t :: 0 <= t < |children| && t != token ==> children[t] == old(children)[t]
      ensures owned ==> children[token].stopping && (old(children)[token].stopping || !children[token].timer)
    {
      if !pidMatches { return false; }
      if children[token].stopping { return true; }
      children := children[token := children[token].(stopping := true)];
      children := children[token := children[token].(timer := false)];
      return true;
    }

    method OnStopped(ticket: nat)
      requires Enabled(Now(), StopReturned(ticket))
      modifies this`jobs
      ensures Now() == Next(old(Now()), StopReturned(ticket))
    {
      jobs := jobs[ticket := jobs[ticket].(at := Idle)];
    }

    // -------------------------------------------------------------- events of a child

    method OnExit(token: nat)
      requires Enabled(Now(), Exit(token))
      modifies this`children
      ensures Now() == Next(old(Now()), Exit(token))
    {
      children := children[token := children[token].(exited := true)];
    }

    /** The handler looks whose entry it finds under its key before it touches anything. */
    method OnClose(token: nat)
      requires token < |children|
      modifies this`children, this`managed, this`leases, registry`entries
      ensures Now() == ClosedBy(old(Now()), token)
      ensures OthersKept(old(managed), managed, old(children)[token].key)
      ensures var key := old(children)[token].key;
              key in old(managed) && old(managed)[key] != token ==>
                managed == old(managed) && registry.entries == old(registry.entries) && leases == old(leases)
    {
      var child := children[token];
      if child.Entered() && child.key in managed && managed[child.key] == token {
        UndoEntry(token, child.(closed := true, handled := true));
      } else {
        children := children[token := child.(closed := true)];
      }
    }

    method OnLeaseTick(token: nat, renewed: bool)
      requires Enabled(Now(), LeaseTick(token, renewed))
      modifies this`children
      ensures Now() == Next(old(Now()), LeaseTick(token, renewed))
    {
      if !renewed { children := children[token := children[token].(timer := false)]; }
    }

    // -------------------------------------------------------------- shutdown

    method ShutdownAll()
      modifies registry`shuttingDown
      ensures Now() == Next(old(Now()), Quit)
    {
      registry.shuttingDown := true;
    }

    method ShutdownFinished()
      requires registry.shuttingDown
      modifies this`cleared, registry`entries
      ensures Now() == Next(old(Now()), QuitDone)
    {
      registry.Clear();
      cleared := true;
    }
  }
}
