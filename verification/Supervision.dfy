/**
 The daemon supervisor as a state machine. A step is one stretch of code between two awaits, of a
 start, an ensure, a stop or a shutdown, or an event of a child process; steps of different calls and
 children come in any order.
 */
module Supervision {

  import opened Prelude
  import StartLock

  datatype Domain = All | Cycle | Channel

  predicate Overlap(a: Domain, b: Domain)
  {
    a == All || b == All || a == b
  }

  datatype Key = Key(subject: string, domain: Domain)

  function DomainName(domain: Domain): string
  {
    match domain
    case All => "all"
    case Cycle => "cycle"
    case Channel => "channel"
  }

  /** The keys are strings in the program. */
  function ManagedKey(key: Key): string
  {
    key.subject + "::" + DomainName(key.domain)
  }

  function RegistryId(key: Key): string
  {
    if key.domain == All then key.subject else key.subject + ":" + DomainName(key.domain)
  }

  /** The strings tell keys apart when subjects have no colon in them. */
  lemma KeyStringsAreDistinct(a: Key, b: Key)
    requires ':' !in a.subject && ':' !in b.subject && a != b
    ensures ManagedKey(a) != ManagedKey(b) && RegistryId(a) != RegistryId(b)
  {
    var x, y := DomainName(a.domain), DomainName(b.domain);
    assert a.domain != b.domain ==> x[1] != y[1];
    assert ManagedKey(a) == a.subject + ("::" + x) && ManagedKey(b) == b.subject + ("::" + y);
    FirstColonDecides(a.subject, "::" + x, b.subject, "::" + y);
    assert ("::" + x)[2..] == x && ("::" + y)[2..] == y;
    var x', y' := if a.domain == All then "" else ":" + x, if b.domain == All then "" else ":" + y;
    assert RegistryId(a) == a.subject + x' && RegistryId(b) == b.subject + y';
    FirstColonDecides(a.subject, x', b.subject, y');
    assert a.domain != All ==> x'[1..] == x;
    assert b.domain != All ==> y'[1..] == y;
  }

  lemma FirstColonDecides(x: string, x': string, y: string, y': string)
    requires ':' !in x && ':' !in y
    requires (x' == "" || x'[0] == ':') && (y' == "" || y'[0] == ':')
    ensures x + x' == y + y' ==> x == y && x' == y'
  {
    var s, t := x + x', y + y';
    assert forall i :: 0 <= i < |x| ==> s[i] == x[i];
    assert forall i :: 0 <= i < |y| ==> t[i] == y[i];
    assert x' != "" ==> s[|x|] == ':';
    assert y' != "" ==> t[|y|] == ':';
    assert x == s[..|x|] && y == t[..|y|] && x' == s[|x|..] && y' == t[|y|..];
  }

  /** With a colon they do not: this is why subject names may not contain one. */
  lemma ColonConfuses()
    ensures RegistryId(Key("a:cycle", All)) == RegistryId(Key("a", Cycle))
  {
    assert "a" + ":" + "cycle" == "a:cycle";
  }

  /** `Ensure` is for one of the two single domains. */
  datatype Task = Start(domain: Domain) | Ensure(domain: Domain)

  datatype At = Idle | Starting(token: nat) | Stopping(token: nat)

  /** What one holder of the start lock has left to do, and what it waits for. */
  datatype Job = Job(subject: string, todo: seq<Task>, at: At)

  /** `Refused` could not register, `Failing` was undone after it had: both still wait for the child. */
  datatype Stage = Spawning | Refused | Booting | Failing | Failed | Started

  /** One `startLocked` that got as far as a child; its index is its owner token. */
  datatype Child = Child(key: Key, ticket: nat, stage: Stage, exited: bool, closed: bool,
                         handled: bool, stopping: bool, timer: bool)
  {
    predicate InProgress() { stage != Failed && stage != Started }

    /** Between its entry into the managed map and the close handler that takes it out again. */
    predicate Entered() { (stage == Booting || stage == Started) && !handled }
  }

  datatype Health = Fresh | Stale | Zombie | Missing

  /** How far the synchronous part of a start gets. */
  datatype Launch = DiskConflict | LogsFail | PrepareFails | LeaseFail | SpawnThrows | Spawned

  /** What the start finds outside: a worker on disk that is in the way, log files, the paths and the
      environment that are prepared for the child, the lease file, the operating system. */
  datatype Outside = Outside(conflict: bool, stdoutOpens: bool, stderrOpens: bool, modesSet: bool,
                             prepares: bool, leaseMade: bool, spawns: bool)

  predicate LogsOpen(o: Outside)
  {
    o.stdoutOpens && o.stderrOpens && o.modesSet
  }

  function LaunchIn(o: Outside): Launch
  {
    if o.conflict then DiskConflict
    else if !LogsOpen(o) then LogsFail
    else if !o.prepares then PrepareFails
    else if !o.leaseMade then LeaseFail
    else if !o.spawns then SpawnThrows
    else Spawned
  }

  datatype State = State(
    locks: StartLock.Locks, jobs: seq<Job>, children: seq<Child>,
    managed: map<Key, nat>, registered: map<Key, nat>, leases: map<Key, nat>,
    quitting: bool, cleared: bool)

  // ---------------------------------------------------------------- lookups

  predicate Live(s: State, key: Key)
  {
    key in s.managed && s.managed[key] < |s.children| && !s.children[s.managed[key]].exited
  }

  /** `coveringManaged` for a single domain. */
  function Covering(s: State, subject: string, domain: Domain): Option<nat>
  {
    if Live(s, Key(subject, domain)) then Some(s.managed[Key(subject, domain)])
    else if Live(s, Key(subject, All)) then Some(s.managed[Key(subject, All)])
    else None
  }

  predicate Covered(s: State, subject: string, domain: Domain)
  {
    if domain == All then
      Live(s, Key(subject, All)) || (Live(s, Key(subject, Cycle)) && Live(s, Key(subject, Channel)))
    else Covering(s, subject, domain).Some?
  }

  predicate Overlapping(s: State, subject: string, domain: Domain)
  {
    || Live(s, Key(subject, All))
    || (Overlap(Cycle, domain) && Live(s, Key(subject, Cycle)))
    || (Overlap(Channel, domain) && Live(s, Key(subject, Channel)))
  }

  // ---------------------------------------------------------------- jobs

  predicate Holds(s: State, ticket: nat)
  {
    ticket < |s.jobs| && ticket < |s.locks.tickets| && s.locks.tickets[ticket].phase == StartLock.Running
  }

  function WithJob(s: State, ticket: nat, todo: seq<Task>, at: At): State
    requires ticket < |s.jobs|
  {
    s.(jobs := s.jobs[ticket := Job(s.jobs[ticket].subject, todo, at)])
  }

  /** A task threw: the whole call does, and gives the lock on. */
  function JobFailed(s: State, ticket: nat): State
    requires ticket < |s.jobs|
  {
    WithJob(s, ticket, [], Idle).(locks := StartLock.SettledBy(s.locks, ticket))
  }

  /** A task returned: on to the next one, or the call returns and gives the lock on. */
  function TaskDone(s: State, ticket: nat): State
    requires ticket < |s.jobs|
  {
    var rest := if s.jobs[ticket].todo == [] then [] else s.jobs[ticket].todo[1..];
    var s' := WithJob(s, ticket, rest, Idle);
    if rest == [] then s'.(locks := StartLock.SettledBy(s.locks, ticket)) else s'
  }

  function WithChild(s: State, token: nat, child: Child): State
    requires token < |s.children|
  {
    s.(children := s.children[token := child])
  }

  /** A lease record goes only to the owner it names. */
  function LeaseRemoved(s: State, key: Key, token: nat): map<Key, nat>
  {
    if key in s.leases && s.leases[key] == token then s.leases - {key} else s.leases
  }

  /** The entry is taken out if it is still this start's; the unregister callback drops whatever is
      registered under the key; renewal ends. */
  function Removed(s: State, token: nat, child: Child): State
    requires token < |s.children|
  {
    s.(managed := if child.key in s.managed && s.managed[child.key] == token
                  then s.managed - {child.key} else s.managed,
       registered := s.registered - {child.key},
       leases := LeaseRemoved(s, child.key, token),
       children := s.children[token := child.(timer := false)])
  }

  // ---------------------------------------------------------------- the stretches of code

  function Requested(s: State, subject: string, todo: seq<Task>): State
  {
    s.(locks := StartLock.Next(s.locks, StartLock.Request(subject)),
       jobs := s.jobs + [Job(subject, todo, Idle)])
  }

  /** `startLocked` up to its first await. */
  function StartBegun(s: State, ticket: nat, domain: Domain, launch: Launch): State
    requires ticket < |s.jobs|
  {
    var job := s.jobs[ticket];
    var key, token := Key(job.subject, domain), |s.children|;
    if Covered(s, job.subject, domain) then TaskDone(s, ticket)
    else if Overlapping(s, job.subject, domain) then JobFailed(s, ticket)
    else
      match launch
      case DiskConflict => JobFailed(s, ticket)
      case LogsFail => JobFailed(s, ticket)
      case PrepareFails => JobFailed(s, ticket)
      case LeaseFail => JobFailed(s, ticket)
      case SpawnThrows => JobFailed(s, ticket).(leases := s.leases - {key})
      case Spawned =>
        WithJob(s, ticket, job.todo, Starting(token)).(
          leases := s.leases[key := token],
          children := s.children + [Child(key, ticket, Spawning, false, false, false, false, false)])
  }

  /** `stopEntry` up to its first await: it is in vain for a child that is not its own, and does
      nothing when the entry is being stopped already. */
  function StopBegun(s: State, token: nat): State
    requires token < |s.children|
  {
    if s.children[token].stopping then s
    else WithChild(s, token, s.children[token].(stopping := true, timer := false))
  }

  /** What `ensureOne` decides: keep what there is, stop the owned child and start anew, or start. */
  datatype Choice = Keep | Restart(token: nat) | StartNew

  function EnsureChoice(s: State, subject: string, domain: Domain, health: Health): Choice
  {
    var owned := Covering(s, subject, domain);
    if health == Fresh then Keep
    else if owned.Some? && (health == Stale || health == Zombie) then Restart(owned.value)
    else if health == Stale then Keep
    else StartNew
  }

  function RestartBegun(s: State, ticket: nat, domain: Domain, token: nat, pidMatches: bool): State
    requires ticket < |s.jobs|
  {
    var todo := s.jobs[ticket].todo;
    if !pidMatches || token >= |s.children| then JobFailed(s, ticket)
    else
      WithJob(StopBegun(s, token), ticket, [Start(domain)] + (if todo == [] then [] else todo[1..]), Stopping(token))
  }

  /** `ensureOne` up to its first await. */
  function EnsureBegun(s: State, ticket: nat, domain: Domain, health: Health, pidMatches: bool, launch: Launch): State
    requires ticket < |s.jobs|
  {
    match EnsureChoice(s, s.jobs[ticket].subject, domain, health)
    case Keep => TaskDone(s, ticket)
    case Restart(token) => RestartBegun(s, ticket, domain, token, pidMatches)
    case StartNew => StartBegun(s, ticket, domain, launch)
  }

  /** From the `spawn` or `error` event to the next await: register, enter, first lease renewal. */
  function SpawnHeard(s: State, token: nat, ok: bool, renewed: bool): State
    requires token < |s.children| && s.children[token].ticket < |s.jobs|
  {
    var child := s.children[token];
    if !ok then
      JobFailed(WithChild(s, token, child.(stage := Failed)), child.ticket).(
        leases := LeaseRemoved(s, child.key, token))
    else if s.quitting || child.key in s.registered then WithChild(s, token, child.(stage := Refused))
    else
      var entered := s.(registered := s.registered[child.key := token],
                        managed := s.managed[child.key := token]);
      if renewed then WithChild(entered, token, child.(stage := Booting, timer := true))
      else Removed(entered, token, child.(stage := Failing))
  }

  /** `waitForStartup` returned or threw. */
  function BootHeard(s: State, token: nat, ok: bool): State
    requires token < |s.children| && s.children[token].ticket < |s.jobs|
  {
    var child := s.children[token];
    if ok then TaskDone(WithChild(s, token, child.(stage := Started)), child.ticket)
    else Removed(s, token, child.(stage := Failing))
  }

  /** A failed start has waited for its child to end, and throws. */
  function FailureDone(s: State, token: nat): State
    requires token < |s.children| && s.children[token].ticket < |s.jobs|
  {
    var child := s.children[token];
    JobFailed(WithChild(s, token, child.(stage := Failed)), child.ticket).(
      leases := LeaseRemoved(s, child.key, token))
  }

  /** The `close` event of a child; the handler is attached when the entry is made. */
  function ClosedBy(s: State, token: nat): State
    requires token < |s.children|
  {
    var child := s.children[token];
    if child.Entered() && child.key in s.managed && s.managed[child.key] == token then
      Removed(s, token, child.(closed := true, handled := true))
    else WithChild(s, token, child.(closed := true))
  }

  datatype Step =
    | RequestStart(subject: string, domain: Domain)
    | RequestEnsure(subject: string, domain: Domain)
    | BeginJob(ticket: nat)
    | Advance(ticket: nat, health: Health, pidMatches: bool, launch: Launch)
    | SpawnEvent(token: nat, ok: bool, renewed: bool)
    | BootEvent(token: nat, ok: bool)
    | ChildEnded(token: nat)
    | StopReturned(ticket: nat)
    | StopEntry(token: nat)
    | Exit(token: nat)
    | Close(token: nat)
    | LeaseTick(token: nat, renewed: bool)
    | ReleaseJob(ticket: nat)
    | Quit
    | QuitDone

  predicate Enabled(s: State, step: Step)
  {
    match step
    case BeginJob(ticket) => StartLock.MayBegin(s.locks, ticket)
    case Advance(ticket, _, _, _) => Holds(s, ticket) && s.jobs[ticket].at == Idle && s.jobs[ticket].todo != []
    case SpawnEvent(t, _, _) => InStage(s, t, Spawning)
    case BootEvent(t, _) => InStage(s, t, Booting)
    case ChildEnded(t) => InStage(s, t, Refused) || InStage(s, t, Failing)
    case StopReturned(ticket) => Holds(s, ticket) && s.jobs[ticket].at.Stopping?
    case StopEntry(t) => t < |s.children| && s.children[t].stage != Spawning && s.children[t].stage != Refused
    case Exit(t) => t < |s.children| && !s.children[t].exited
    case Close(t) => t < |s.children| && s.children[t].exited && !s.children[t].closed
    case LeaseTick(t, _) => t < |s.children| && s.children[t].timer
    case ReleaseJob(ticket) => StartLock.Enabled(s.locks, StartLock.Release(ticket))
    case QuitDone => s.quitting
    case _ => true
  }

  predicate InStage(s: State, t: nat, stage: Stage)
  {
    t < |s.children| && s.children[t].stage == stage && s.children[t].ticket < |s.jobs|
  }

  function Next(s: State, step: Step): State
  {
    if !Enabled(s, step) then s
    else
      match step
      case RequestStart(subject, domain) => Requested(s, subject, [Start(domain)])
      case RequestEnsure(subject, domain) =>
        Requested(s, subject, if domain == All then [Ensure(Cycle), Ensure(Channel)] else [Ensure(domain)])
      case BeginJob(ticket) => s.(locks := StartLock.Next(s.locks, StartLock.Begin(ticket)))
      case Advance(ticket, health, pidMatches, launch) =>
        (match s.jobs[ticket].todo[0]
         case Start(domain) => StartBegun(s, ticket, domain, launch)
         case Ensure(domain) => EnsureBegun(s, ticket, domain, health, pidMatches, launch))
      case SpawnEvent(t, ok, renewed) => SpawnHeard(s, t, ok, renewed)
      case BootEvent(t, ok) => BootHeard(s, t, ok)
      case ChildEnded(t) => FailureDone(s, t)
      case StopReturned(ticket) => WithJob(s, ticket, s.jobs[ticket].todo, Idle)
      case StopEntry(t) => StopBegun(s, t)
      case Exit(t) => WithChild(s, t, s.children[t].(exited := true))
      case Close(t) => ClosedBy(s, t)
      case LeaseTick(t, renewed) => if renewed then s else WithChild(s, t, s.children[t].(timer := false))
      case ReleaseJob(ticket) => s.(locks := StartLock.Next(s.locks, StartLock.Release(ticket)))
      case Quit => s.(quitting := true)
      case QuitDone => s.(registered := map[], cleared := true)
  }

  function Run(steps: seq<Step>): State
  {
    if steps == [] then State(StartLock.Locks(map[], []), [], [], map[], map[], map[], false, false)
    else Next(Run(steps[..|steps| - 1]), steps[|steps| - 1])
  }

  // ---------------------------------------------------------------- invariant

  /** A start in progress is what a running holder of its subject's lock waits for, and a call that
      is not through has something left to do. */
  ghost predicate JobsOk(locks: StartLock.Locks, jobs: seq<Job>, cs: seq<Child>)
  {
    && StartLock.Inv(locks)
    && |jobs| == |locks.tickets|
    && (forall i :: 0 <= i < |jobs| ==>
          && jobs[i].subject == locks.tickets[i].subject
          && (jobs[i].todo == [] ==> locks.tickets[i].Finished())
          && (jobs[i].at != Idle ==> locks.tickets[i].phase == StartLock.Running)
          && (jobs[i].at.Starting? ==> 
                jobs[i].at.token < |cs| && cs[jobs[i].at.token].InProgress() && cs[jobs[i].at.token].ticket == i))
    && (forall t :: 0 <= t < |cs| ==>
          && cs[t].ticket < |jobs|
          && jobs[cs[t].ticket].subject == cs[t].key.subject
          && (cs[t].InProgress() ==> jobs[cs[t].ticket].at == Starting(t))
          && (cs[t].handled ==> cs[t].stage != Spawning))
  }

  /** The managed map holds exactly the entered children; until shutdown so does the registry. */
  ghost predicate MapsOk(managed: map<Key, nat>, registered: map<Key, nat>, quitting: bool, cleared: bool,
                         cs: seq<Child>)
  {
    && (forall k :: k in managed ==> managed[k] < |cs| && cs[managed[k]].key == k && cs[managed[k]].Entered())
    && (forall t :: 0 <= t < |cs| && cs[t].Entered() ==> cs[t].key in managed && managed[cs[t].key] == t)
    && (forall t :: 0 <= t < |cs| && cs[t].stage == Booting && cs[t].key in managed ==> managed[cs[t].key] == t)
    && (if cleared then quitting && registered == map[] else registered == managed)
  }

  /** Only an entered child renews its lease, and one that failed or was closed owns none. */
  ghost predicate LeasesOk(leases: map<Key, nat>, cs: seq<Child>)
  {
    && (forall t :: 0 <= t < |cs| && cs[t].timer ==> cs[t].Entered())
    && (forall k :: k in leases ==>
          leases[k] < |cs| && cs[leases[k]].key == k && !cs[leases[k]].handled
          && cs[leases[k]].stage != Failing && cs[leases[k]].stage != Failed)
  }

  /** Live entries of a subject do not overlap each other, nor a start that is about to enter. */
  ghost predicate Apart(c: Child, d: Child)
  {
    (c.Entered() && (d.Entered() || d.stage == Spawning)
     && c.key.subject == d.key.subject && !c.exited && !d.exited)
    ==> !Overlap(c.key.domain, d.key.domain)
  }

  ghost predicate DomainsOk(cs: seq<Child>)
  {
    forall t, u :: 0 <= t < |cs| && 0 <= u < |cs| && t != u ==> Apart(cs[t], cs[u])
  }

  ghost predicate Inv(s: State)
  {
    && JobsOk(s.locks, s.jobs, s.children)
    && MapsOk(s.managed, s.registered, s.quitting, s.cleared, s.children)
    && LeasesOk(s.leases, s.children)
    && DomainsOk(s.children)
  }

  lemma OneInProgress(s: State, t: nat, u: nat)
    requires Inv(s) && t < |s.children| && u < |s.children|
    requires s.children[t].InProgress() && s.children[u].InProgress()
    requires s.children[t].key.subject == s.children[u].key.subject
    ensures t == u
  {
    var i, j := s.children[t].ticket, s.children[u].ticket;
    assert s.locks.tickets[i].phase == s.locks.tickets[j].phase == StartLock.Running;
  }

  // How a change of one child bears on each part of the invariant.

  lemma JobsUpdate(locks: StartLock.Locks, jobs: seq<Job>, cs: seq<Child>, t: nat, child: Child)
    requires JobsOk(locks, jobs, cs) && t < |cs|
    requires child.key == cs[t].key && child.ticket == cs[t].ticket && child.InProgress() == cs[t].InProgress()
    requires child.handled ==> child.stage != Spawning
    ensures JobsOk(locks, jobs, cs[t := child])
  {
  }

  lemma MapsUpdate(s: State, t: nat, child: Child)
    requires MapsOk(s.managed, s.registered, s.quitting, s.cleared, s.children) && t < |s.children|
    requires child.key == s.children[t].key && child.Entered() == s.children[t].Entered()
    requires child.stage == Booting ==> s.children[t].stage == Booting
    ensures MapsOk(s.managed, s.registered, s.quitting, s.cleared, s.children[t := child])
  {
  }

  lemma LeasesUpdate(leases: map<Key, nat>, cs: seq<Child>, t: nat, child: Child)
    requires LeasesOk(leases, cs) && t < |cs| && child.key == cs[t].key
    requires child.timer ==> child.Entered()
    requires child.handled || child.stage == Failing || child.stage == Failed ==>
               child.key !in leases || leases[child.key] != t
    ensures LeasesOk(leases, cs[t := child])
  {
  }

  lemma DomainsUpdate(cs: seq<Child>, t: nat, child: Child)
    requires DomainsOk(cs) && t < |cs| && child.key == cs[t].key
    requires child.Entered() ==> cs[t].Entered()
    requires child.stage == Spawning ==> cs[t].stage == Spawning
    requires cs[t].exited ==> child.exited
    ensures DomainsOk(cs[t := child])
  {
    var cs' := cs[t := child];
    forall u, v | 0 <= u < |cs| && 0 <= v < |cs| && u != v ensures Apart(cs'[u], cs'[v]) {
      assert Apart(cs[u], cs[v]);
    }
  }

  lemma JobsSpawned(locks: StartLock.Locks, jobs: seq<Job>, cs: seq<Child>, i: nat, todo: seq<Task>, child: Child)
    requires JobsOk(locks, jobs, cs) && i < |jobs| && locks.tickets[i].phase == StartLock.Running
    requires child.ticket == i && child.key.subject == jobs[i].subject && child.InProgress() && !child.handled
    requires forall t :: 0 <= t < |cs| && cs[t].InProgress() ==> cs[t].ticket != i
    requires todo != []
    ensures JobsOk(locks, jobs[i := Job(jobs[i].subject, todo, Starting(|cs|))], cs + [child])
  {
    var cs' := cs + [child];
    assert forall t :: 0 <= t < |cs| ==> cs'[t] == cs[t];
  }

  /** The job `i` settles its ticket; no start in progress is its. */
  lemma JobsSettled(locks: StartLock.Locks, jobs: seq<Job>, cs: seq<Child>, i: nat)
    requires JobsOk(locks, jobs, cs) && i < |jobs| && locks.tickets[i].phase == StartLock.Running
    requires forall t :: 0 <= t < |cs| && cs[t].InProgress() ==> cs[t].ticket != i
    ensures JobsOk(StartLock.SettledBy(locks, i), jobs[i := Job(jobs[i].subject, [], Idle)], cs)
  {
    StartLock.SettleKeeps(locks, i);
  }

  /** The start `t` is over and its job goes on to the next task. */
  lemma JobsEnded(locks: StartLock.Locks, jobs: seq<Job>, cs: seq<Child>, t: nat, child: Child, todo: seq<Task>)
    requires JobsOk(locks, jobs, cs) && t < |cs| && cs[t].InProgress() && todo != []
    requires child.key == cs[t].key && child.ticket == cs[t].ticket && !child.InProgress()
    ensures JobsOk(locks, jobs[child.ticket := Job(jobs[child.ticket].subject, todo, Idle)], cs[t := child])
    ensures locks.tickets[child.ticket].phase == StartLock.Running
    ensures forall u :: 0 <= u < |cs| && u != t && cs[u].InProgress() ==> cs[u].ticket != child.ticket
  {
    assert forall u :: 0 <= u < |cs| && u != t ==> cs[t := child][u] == cs[u];
  }

  /** The start `t` is over and with it its call. */
  lemma JobsEndedLast(locks: StartLock.Locks, jobs: seq<Job>, cs: seq<Child>, t: nat, child: Child)
    requires JobsOk(locks, jobs, cs) && t < |cs| && cs[t].InProgress()
    requires child.key == cs[t].key && child.ticket == cs[t].ticket && !child.InProgress()
    ensures JobsOk(StartLock.SettledBy(locks, child.ticket),
                   jobs[child.ticket := Job(jobs[child.ticket].subject, [], Idle)], cs[t := child])
  {
    var i := child.ticket;
    var jobs' := jobs[i := Job(jobs[i].subject, [Start(All)], Idle)];
    JobsEnded(locks, jobs, cs, t, child, [Start(All)]);
    assert forall u :: 0 <= u < |cs| && u != t ==> cs[t := child][u] == cs[u];
    JobsSettled(locks, jobs', cs[t := child], i);
    assert jobs'[i := Job(jobs'[i].subject, [], Idle)] == jobs[i := Job(jobs[i].subject, [], Idle)];
  }

  lemma MapsAppend(s: State, child: Child)
    requires MapsOk(s.managed, s.registered, s.quitting, s.cleared, s.children)
    requires child.stage == Spawning
    ensures MapsOk(s.managed, s.registered, s.quitting, s.cleared, s.children + [child])
  {
  }

  lemma LeasesAppend(leases: map<Key, nat>, cs: seq<Child>, child: Child)
    requires LeasesOk(leases, cs) && child.stage == Spawning && !child.timer && !child.handled
    ensures LeasesOk(leases[child.key := |cs|], cs + [child])
  {
    assert forall u :: 0 <= u < |cs| ==> (cs + [child])[u] == cs[u];
  }

  lemma RequestedKeeps(s: State, subject: string, todo: seq<Task>)
    requires Inv(s) && todo != []
    ensures Inv(Requested(s, subject, todo))
  {
    StartLock.StepKeeps(s.locks, StartLock.Request(subject));
  }

  lemma LocksMoveKeeps(s: State, locks: StartLock.Locks, t: nat)
    requires Inv(s) && t < |s.jobs| && s.jobs[t].at == Idle
    requires StartLock.Inv(locks) && |locks.tickets| == |s.locks.tickets|
    requires forall i :: 0 <= i < |locks.tickets| ==>
               locks.tickets[i].subject == s.locks.tickets[i].subject
               && (i != t ==> locks.tickets[i].phase == s.locks.tickets[i].phase)
               && (s.locks.tickets[i].Finished() ==> locks.tickets[i].Finished())
    ensures Inv(s.(locks := locks))
  {
  }

  lemma BeginKeeps(s: State, t: nat)
    requires Inv(s) && StartLock.MayBegin(s.locks, t)
    ensures Inv(s.(locks := StartLock.Next(s.locks, StartLock.Begin(t))))
  {
    StartLock.StepKeeps(s.locks, StartLock.Begin(t));
    LocksMoveKeeps(s, StartLock.Next(s.locks, StartLock.Begin(t)), t);
  }

  lemma ReleaseKeeps(s: State, t: nat)
    requires Inv(s) && StartLock.Enabled(s.locks, StartLock.Release(t))
    ensures Inv(s.(locks := StartLock.Next(s.locks, StartLock.Release(t))))
  {
    StartLock.StepKeeps(s.locks, StartLock.Release(t));
    LocksMoveKeeps(s, StartLock.Next(s.locks, StartLock.Release(t)), t);
  }

  /** The job `ticket` goes on; no start that is still in progress is its. */
  lemma JobMovesKeeps(s: State, ticket: nat, todo: seq<Task>, at: At)
    requires Inv(s) && Holds(s, ticket) && !at.Starting? && todo != []
    requires forall t :: 0 <= t < |s.children| && s.children[t].InProgress() ==> s.children[t].ticket != ticket
    ensures Inv(WithJob(s, ticket, todo, at))
  {
  }

  ghost predicate NoStartOf(s: State, ticket: nat)
  {
    forall t :: 0 <= t < |s.children| && s.children[t].InProgress() ==> s.children[t].ticket != ticket
  }

  lemma JobFailedKeeps(s: State, ticket: nat)
    requires Inv(s) && Holds(s, ticket) && NoStartOf(s, ticket)
    ensures Inv(JobFailed(s, ticket))
  {
    JobsSettled(s.locks, s.jobs, s.children, ticket);
  }

  lemma TaskDoneKeeps(s: State, ticket: nat)
    requires Inv(s) && Holds(s, ticket) && NoStartOf(s, ticket)
    ensures Inv(TaskDone(s, ticket))
  {
    var rest := if s.jobs[ticket].todo == [] then [] else s.jobs[ticket].todo[1..];
    if rest == [] {
      JobsSettled(s.locks, s.jobs, s.children, ticket);
    } else {
      JobMovesKeeps(s, ticket, rest, Idle);
    }
  }

  /** Nothing that is live overlaps, so nothing entered does but what has exited. */
  lemma NoOverlapWithEntered(s: State, subject: string, domain: Domain, t: nat)
    requires Inv(s) && !Overlapping(s, subject, domain)
    requires t < |s.children| && s.children[t].Entered() && !s.children[t].exited
    requires s.children[t].key.subject == subject
    ensures !Overlap(s.children[t].key.domain, domain)
  {
    assert Live(s, s.children[t].key);
    assert s.children[t].key == Key(subject, s.children[t].key.domain);
  }

  lemma SpawnedApart(s: State, child: Child)
    requires Inv(s) && !Overlapping(s, child.key.subject, child.key.domain) && child.stage == Spawning
    ensures DomainsOk(s.children + [child])
  {
    var cs, n := s.children + [child], |s.children|;
    forall t, u | 0 <= t < |cs| && 0 <= u < |cs| && t != u ensures Apart(cs[t], cs[u]) {
      if t < n && u < n {
        assert Apart(s.children[t], s.children[u]);
      } else if t < n && cs[t].Entered() && !cs[t].exited && cs[t].key.subject == child.key.subject {
        NoOverlapWithEntered(s, child.key.subject, child.key.domain, t);
      }
    }
  }

  lemma SpawnedKeeps(s: State, ticket: nat, domain: Domain)
    requires Inv(s) && Holds(s, ticket) && NoStartOf(s, ticket)
    requires !Covered(s, s.jobs[ticket].subject, domain) && !Overlapping(s, s.jobs[ticket].subject, domain)
    ensures Inv(StartBegun(s, ticket, domain, Spawned))
  {
    var s' := StartBegun(s, ticket, domain, Spawned);
    var child := s'.children[|s.children|];
    SpawnedApart(s, child);
    JobsSpawned(s.locks, s.jobs, s.children, ticket, s.jobs[ticket].todo, child);
    MapsAppend(s, child);
    LeasesAppend(s.leases, s.children, child);
  }

  lemma StartBegunKeeps(s: State, ticket: nat, domain: Domain, launch: Launch)
    requires Inv(s) && Holds(s, ticket) && NoStartOf(s, ticket)
    ensures Inv(StartBegun(s, ticket, domain, launch))
  {
    TaskDoneKeeps(s, ticket);
    JobFailedKeeps(s, ticket);
    if !Covered(s, s.jobs[ticket].subject, domain) && !Overlapping(s, s.jobs[ticket].subject, domain) {
      if launch == Spawned { SpawnedKeeps(s, ticket, domain); }
    }
  }

  /** The child `t` changes in nothing but that it exits, is stopped, or no longer renews. */
  lemma ChildMarkedKeeps(s: State, t: nat, child: Child)
    requires Inv(s) && t < |s.children|
    requires var c := s.children[t];
             child == c.(exited := child.exited, closed := child.closed, stopping := child.stopping,
                         timer := child.timer)
             && (c.exited ==> child.exited) && (child.timer ==> c.timer)
    ensures Inv(WithChild(s, t, child))
  {
    JobsUpdate(s.locks, s.jobs, s.children, t, child);
    MapsUpdate(s, t, child);
    LeasesUpdate(s.leases, s.children, t, child);
    DomainsUpdate(s.children, t, child);
  }

  lemma StopBegunKeeps(s: State, t: nat)
    requires Inv(s) && t < |s.children|
    ensures Inv(StopBegun(s, t))
    ensures forall u :: 0 <= u < |s.children| ==>
      StopBegun(s, t).children[u].InProgress() == s.children[u].InProgress()
      && StopBegun(s, t).children[u].ticket == s.children[u].ticket
  {
    if !s.children[t].stopping {
      ChildMarkedKeeps(s, t, s.children[t].(stopping := true, timer := false));
    }
  }

  lemma RestartBegunKeeps(s: State, ticket: nat, domain: Domain, token: nat, pidMatches: bool)
    requires Inv(s) && Holds(s, ticket) && NoStartOf(s, ticket)
    ensures Inv(RestartBegun(s, ticket, domain, token, pidMatches))
  {
    if !pidMatches || token >= |s.children| {
      JobFailedKeeps(s, ticket);
    } else {
      StopBegunKeeps(s, token);
      var todo := s.jobs[ticket].todo;
      JobMovesKeeps(StopBegun(s, token), ticket, [Start(domain)] + (if todo == [] then [] else todo[1..]),
                    Stopping(token));
    }
  }

  // ---------------------------------------------------------------- the life of a start

  /** The last step of a failing start: its child is gone, its lease with it, and the call throws. */
  lemma EndsByFailing(s: State, t: nat)
    requires Inv(s) && t < |s.children| && s.children[t].InProgress() && s.children[t].stage != Booting
    ensures Inv(FailureDone(s, t))
  {
    var child := s.children[t].(stage := Failed);
    JobsEndedLast(s.locks, s.jobs, s.children, t, child);
    MapsUpdate(s, t, child);
    LeasesUpdate(LeaseRemoved(s, child.key, t), s.children, t, child);
    DomainsUpdate(s.children, t, child);
  }

  lemma EndsByStarting(s: State, t: nat)
    requires Inv(s) && InStage(s, t, Booting)
    ensures Inv(BootHeard(s, t, true))
  {
    var child := s.children[t].(stage := Started);
    var todo := s.jobs[child.ticket].todo;
    var rest := if todo == [] then [] else todo[1..];
    if rest == [] {
      JobsEndedLast(s.locks, s.jobs, s.children, t, child);
    } else {
      JobsEnded(s.locks, s.jobs, s.children, t, child, rest);
    }
    MapsUpdate(s, t, child);
    LeasesUpdate(s.leases, s.children, t, child);
    DomainsUpdate(s.children, t, child);
  }

  // ---------------------------------------------------------------- entering and leaving

  /** A start enters: nobody else is entered or about to enter where it would overlap. */
  lemma EnteredApart(s: State, t: nat, child: Child)
    requires Inv(s) && t < |s.children| && s.children[t].stage == Spawning
    requires child.key == s.children[t].key && child.exited == s.children[t].exited && child.stage == Booting
    ensures DomainsOk(s.children[t := child])
  {
    var cs' := s.children[t := child];
    forall u, v | 0 <= u < |cs'| && 0 <= v < |cs'| && u != v ensures Apart(cs'[u], cs'[v]) {
      assert Apart(s.children[u], s.children[v]) && Apart(s.children[v], s.children[u]);
      if u == t && s.children[v].stage == Spawning && s.children[v].key.subject == child.key.subject {
        OneInProgress(s, t, v);
      }
    }
  }

  lemma EnterKeeps(s: State, t: nat, child: Child)
    requires Inv(s) && t < |s.children| && s.children[t].stage == Spawning && !s.children[t].handled
    requires !s.quitting && s.children[t].key !in s.registered
    requires child == s.children[t].(stage := Booting, timer := true)
    ensures Inv(s.(registered := s.registered[child.key := t], managed := s.managed[child.key := t],
                   children := s.children[t := child]))
  {
    JobsUpdate(s.locks, s.jobs, s.children, t, child);
    LeasesUpdate(s.leases, s.children, t, child);
    EnteredApart(s, t, child);
    MapsEntered(s, t, child);
  }

  lemma MapsEntered(s: State, t: nat, child: Child)
    requires Inv(s) && t < |s.children| && s.children[t].stage == Spawning && !s.children[t].handled
    requires !s.quitting && s.children[t].key !in s.registered
    requires child == s.children[t].(stage := Booting, timer := true)
    ensures MapsOk(s.managed[child.key := t], s.registered[child.key := t], s.quitting, s.cleared,
                   s.children[t := child])
  {
    forall u | 0 <= u < |s.children| && u != t && s.children[u].stage == Booting
      ensures s.children[u].key != child.key
    {
      if s.children[u].key == child.key { OneInProgress(s, t, u); }
    }
  }

  /** An entered child leaves: by failing to boot, or by its close handler. */
  lemma RemovedKeeps(s: State, t: nat, child: Child)
    requires Inv(s) && t < |s.children| && (s.children[t].Entered() || s.children[t].stage == Booting)
    requires child.key == s.children[t].key && child.ticket == s.children[t].ticket
    requires child.exited == s.children[t].exited && !child.Entered()
    requires child.InProgress() == s.children[t].InProgress() && child.stage != Spawning
    ensures Inv(Removed(s, t, child))
  {
    var s', child' := Removed(s, t, child), child.(timer := false);
    JobsUpdate(s.locks, s.jobs, s.children, t, child');
    LeasesUpdate(s'.leases, s.children, t, child');
    DomainsUpdate(s.children, t, child');
    MapsLeft(s, t, child', s'.managed, s'.registered);
  }

  lemma MapsLeft(s: State, t: nat, child: Child, managed: map<Key, nat>, registered: map<Key, nat>)
    requires MapsOk(s.managed, s.registered, s.quitting, s.cleared, s.children)
    requires t < |s.children| && (s.children[t].Entered() || s.children[t].stage == Booting)
    requires child.key == s.children[t].key && !child.Entered()
    requires child.stage != Booting || s.children[t].stage == Booting
    requires managed == (if child.key in s.managed && s.managed[child.key] == t then s.managed - {child.key}
                         else s.managed)
    requires registered == s.registered - {child.key}
    ensures MapsOk(managed, registered, s.quitting, s.cleared, s.children[t := child])
  {
    assert child.key in s.managed ==> s.managed[child.key] == t;
    assert managed == s.managed - {child.key};
  }

  // ---------------------------------------------------------------- every step keeps the invariant

  lemma SpawnHeardKeeps(s: State, t: nat, ok: bool, renewed: bool)
    requires Inv(s) && InStage(s, t, Spawning) && !s.children[t].handled
    ensures Inv(SpawnHeard(s, t, ok, renewed))
  {
    hide JobsOk, DomainsOk;
    var child := s.children[t];
    if !ok {
      EndsByFailing(s, t);
    } else if s.quitting || child.key in s.registered {
      var refused := child.(stage := Refused);
      JobsUpdate(s.locks, s.jobs, s.children, t, refused);
      MapsUpdate(s, t, refused);
      LeasesUpdate(s.leases, s.children, t, refused);
      DomainsUpdate(s.children, t, refused);
    } else if renewed {
      EnterKeeps(s, t, child.(stage := Booting, timer := true));
    } else {
      NotRenewedKeeps(s, t);
    }
  }

  lemma NotRenewedKeeps(s: State, t: nat)
    requires Inv(s) && InStage(s, t, Spawning) && !s.children[t].handled
    requires !s.quitting && s.children[t].key !in s.registered
    ensures Inv(SpawnHeard(s, t, true, false))
  {
    hide JobsOk, DomainsOk;
    var s', child := SpawnHeard(s, t, true, false), s.children[t].(stage := Failing, timer := false);
    assert s'.managed == s.managed && s'.registered == s.registered;
    assert s'.children == s.children[t := child];
    JobsUpdate(s.locks, s.jobs, s.children, t, child);
    MapsUpdate(s, t, child);
    LeasesUpdate(s'.leases, s.children, t, child);
    DomainsUpdate(s.children, t, child);
  }

  lemma BootHeardKeeps(s: State, t: nat, ok: bool)
    requires Inv(s) && InStage(s, t, Booting)
    ensures Inv(BootHeard(s, t, ok))
  {
    if ok {
      EndsByStarting(s, t);
    } else {
      RemovedKeeps(s, t, s.children[t].(stage := Failing));
    }
  }

  lemma ClosedByKeeps(s: State, t: nat)
    requires Inv(s) && t < |s.children| && s.children[t].exited
    ensures Inv(ClosedBy(s, t))
  {
    var child := s.children[t];
    if child.Entered() && child.key in s.managed && s.managed[child.key] == t {
      RemovedKeeps(s, t, child.(closed := true, handled := true));
    } else {
      ChildMarkedKeeps(s, t, child.(closed := true));
    }
  }

  lemma AdvanceKeeps(s: State, ticket: nat, health: Health, pidMatches: bool, launch: Launch)
    requires Inv(s) && Enabled(s, Advance(ticket, health, pidMatches, launch))
    ensures Inv(Next(s, Advance(ticket, health, pidMatches, launch)))
  {
    match s.jobs[ticket].todo[0]
    case Start(domain) => StartBegunKeeps(s, ticket, domain, launch);
    case Ensure(domain) =>
      match EnsureChoice(s, s.jobs[ticket].subject, domain, health) {
        case Keep => TaskDoneKeeps(s, ticket);
        case Restart(token) => RestartBegunKeeps(s, ticket, domain, token, pidMatches);
        case StartNew => StartBegunKeeps(s, ticket, domain, launch);
      }
  }

  lemma StepKeeps(s: State, step: Step)
    requires Inv(s)
    ensures Inv(Next(s, step))
  {
    if Enabled(s, step) {
      match step
      case RequestStart(subject, domain) => RequestedKeeps(s, subject, [Start(domain)]);
      case RequestEnsure(subject, domain) =>
        RequestedKeeps(s, subject, if domain == All then [Ensure(Cycle), Ensure(Channel)] else [Ensure(domain)]);
      case BeginJob(ticket) => BeginKeeps(s, ticket);
      case Advance(ticket, health, pidMatches, launch) => AdvanceKeeps(s, ticket, health, pidMatches, launch);
      case SpawnEvent(t, ok, renewed) => SpawnHeardKeeps(s, t, ok, renewed);
      case BootEvent(t, ok) => BootHeardKeeps(s, t, ok);
      case ChildEnded(t) => EndsByFailing(s, t);
      case StopReturned(ticket) =>
        JobMovesKeeps(s, ticket, s.jobs[ticket].todo, Idle);
      case StopEntry(t) => StopBegunKeeps(s, t);
      case Exit(t) => ChildMarkedKeeps(s, t, s.children[t].(exited := true));
      case Close(t) => ClosedByKeeps(s, t);
      case LeaseTick(t, _) => ChildMarkedKeeps(s, t, s.children[t].(timer := false));
      case ReleaseJob(ticket) => ReleaseKeeps(s, ticket);
      case Quit =>
      case QuitDone =>
    }
  }

  lemma {:induction false} RunKeeps(steps: seq<Step>)
    ensures Inv(Run(steps))
  {
    if steps != [] {
      RunKeeps(steps[..|steps| - 1]);
      StepKeeps(Run(steps[..|steps| - 1]), steps[|steps| - 1]);
    }
  }

  // ---------------------------------------------------------------- what the supervisor promises

  /** In every run, two live entries of a subject have domains that do not overlap: one `All`, or
      `Cycle` and `Channel` at most once each. */
  lemma DomainsStayApart(steps: seq<Step>, a: Key, b: Key)
    requires Live(Run(steps), a) && Live(Run(steps), b) && a != b && a.subject == b.subject
    ensures !Overlap(a.domain, b.domain)
  {
    RunKeeps(steps);
    var s := Run(steps);
    assert Apart(s.children[s.managed[a]], s.children[s.managed[b]]);
  }

  /** Until shutdown has finished, the registry and the managed map hold the same starts. */
  lemma RegistryMatchesManaged(steps: seq<Step>)
    ensures !Run(steps).cleared ==> Run(steps).registered == Run(steps).managed
  {
    RunKeeps(steps);
  }

  /** Whatever a start that failed had set up is gone: entry, registration, renewal, lease. */
  lemma FailedLeavesNothing(steps: seq<Step>, t: nat)
    requires t < |Run(steps).children|
    requires Run(steps).children[t].stage == Failing || Run(steps).children[t].stage == Failed
    ensures var s := Run(steps);
            && t !in s.managed.Values && t !in s.registered.Values && t !in s.leases.Values
            && !s.children[t].timer
  {
    RunKeeps(steps);
  }

  /** A lease is renewed only while its start's entry is in the managed map. */
  lemma RenewalOnlyWhileManaged(steps: seq<Step>, t: nat)
    requires t < |Run(steps).children| && Run(steps).children[t].timer
    ensures var s := Run(steps); s.children[t].key in s.managed && s.managed[s.children[t].key] == t
  {
    RunKeeps(steps);
  }

  /** The start, if any, that a step acts for. */
  function ActsFor(step: Step): Option<nat>
  {
    match step
    case SpawnEvent(t, _, _) => Some(t)
    case BootEvent(t, _) => Some(t)
    case ChildEnded(t) => Some(t)
    case Exit(t) => Some(t)
    case Close(t) => Some(t)
    case LeaseTick(t, _) => Some(t)
    case _ => None
  }

  /** `u`'s entry under `key` is as it was. */
  ghost predicate Untouched(s: State, s': State, key: Key, u: nat)
  {
    && key in s'.managed && s'.managed[key] == u
    && (!s.cleared ==> key in s'.registered && s'.registered[key] == u)
    && u < |s.children| == |s'.children| && s'.children[u] == s.children[u]
  }

  lemma RemovedLeavesOthers(s: State, t: nat, child: Child, key: Key, u: nat)
    requires Inv(s) && t < |s.children| && (s.children[t].Entered() || s.children[t].stage == Booting)
    requires child.key == s.children[t].key
    requires key in s.managed && s.managed[key] == u != t
    ensures Untouched(s, Removed(s, t, child), key, u)
  {
  }

  lemma SpawnLeavesOthers(s: State, t: nat, ok: bool, renewed: bool, key: Key, u: nat)
    requires Inv(s) && InStage(s, t, Spawning)
    requires key in s.managed && s.managed[key] == u != t
    ensures Untouched(s, SpawnHeard(s, t, ok, renewed), key, u)
  {
  }

  lemma BootLeavesOthers(s: State, t: nat, ok: bool, key: Key, u: nat)
    requires Inv(s) && InStage(s, t, Booting)
    requires key in s.managed && s.managed[key] == u != t
    ensures Untouched(s, BootHeard(s, t, ok), key, u)
  {
    if !ok { RemovedLeavesOthers(s, t, s.children[t].(stage := Failing), key, u); }
  }

  lemma CloseLeavesOthers(s: State, t: nat, key: Key, u: nat)
    requires Inv(s) && t < |s.children|
    requires key in s.managed && s.managed[key] == u != t
    ensures Untouched(s, ClosedBy(s, t), key, u)
  {
    if s.children[t].Entered() {
      RemovedLeavesOthers(s, t, s.children[t].(closed := true, handled := true), key, u);
    }
  }

  /** No event of one start or its child, however late or repeated, takes away the entry or the
      registration of another start, or stops its renewal. */
  lemma OtherStartsAreUntouched(steps: seq<Step>, step: Step, key: Key)
    requires ActsFor(step).Some? && key in Run(steps).managed && Run(steps).managed[key] != ActsFor(step).value
    ensures Untouched(Run(steps), Next(Run(steps), step), key, Run(steps).managed[key])
  {
    RunKeeps(steps);
    StepLeavesOthers(Run(steps), step, key, Run(steps).managed[key]);
  }

  lemma StepLeavesOthers(s: State, step: Step, key: Key, u: nat)
    requires Inv(s) && ActsFor(step).Some? && ActsFor(step).value != u
    requires key in s.managed && s.managed[key] == u
    ensures Untouched(s, Next(s, step), key, u)
  {
    hide SpawnHeard, BootHeard, ClosedBy, JobsOk, LeasesOk, DomainsOk;
    if Enabled(s, step) {
      match step
      case SpawnEvent(t, ok, renewed) => SpawnLeavesOthers(s, t, ok, renewed, key, u);
      case BootEvent(t, ok) => BootLeavesOthers(s, t, ok, key, u);
      case Close(t) => CloseLeavesOthers(s, t, key, u);
      case _ =>
    }
  }

  function WithoutOwner(m: map<Key, nat>, t: nat): map<Key, nat>
  {
    map k | k in m && m[k] != t :: m[k]
  }

  // When an event makes a start fail, both maps keep exactly what the other starts have in them.

  lemma WithoutOwnerOf(m: map<Key, nat>, t: nat, key: Key)
    requires forall k :: k in m && m[k] == t ==> k == key
    ensures WithoutOwner(m, t) == if key in m && m[key] == t then m - {key} else m
  {
  }

  lemma OwnerIsUnderItsKey(s: State, t: nat)
    requires MapsOk(s.managed, s.registered, s.quitting, s.cleared, s.children) && t < |s.children|
    ensures var key := s.children[t].key;
            && WithoutOwner(s.managed, t)
               == (if key in s.managed && s.managed[key] == t then s.managed - {key} else s.managed)
            && WithoutOwner(s.registered, t)
               == (if key in s.registered && s.registered[key] == t then s.registered - {key} else s.registered)
  {
    WithoutOwnerOf(s.managed, t, s.children[t].key);
    WithoutOwnerOf(s.registered, t, s.children[t].key);
  }

  lemma SpawnFailureUndoes(s: State, t: nat, ok: bool, renewed: bool)
    requires Inv(s) && InStage(s, t, Spawning) && SpawnHeard(s, t, ok, renewed).children[t].stage != Booting
    ensures SpawnHeard(s, t, ok, renewed).managed == s.managed == WithoutOwner(s.managed, t)
    ensures SpawnHeard(s, t, ok, renewed).registered == s.registered == WithoutOwner(s.registered, t)
  {
    OwnerIsUnderItsKey(s, t);
    if ok && !s.quitting && s.children[t].key !in s.registered { EnteredAndLeft(s, t); }
  }

  /** A start whose first lease renewal fails goes in and out within one stretch of code. */
  lemma EnteredAndLeft(s: State, t: nat)
    requires MapsOk(s.managed, s.registered, s.quitting, s.cleared, s.children) && InStage(s, t, Spawning)
    requires !s.quitting && s.children[t].key !in s.registered
    ensures SpawnHeard(s, t, true, false).managed == s.managed
    ensures SpawnHeard(s, t, true, false).registered == s.registered
  {
    var key := s.children[t].key;
    assert s.managed[key := t] - {key} == s.managed;
    assert s.registered[key := t] - {key} == s.registered;
  }

  lemma BootFailureUndoes(s: State, t: nat)
    requires Inv(s) && InStage(s, t, Booting)
    ensures BootHeard(s, t, false).managed == WithoutOwner(s.managed, t)
    ensures BootHeard(s, t, false).registered == WithoutOwner(s.registered, t)
  {
    OwnerIsUnderItsKey(s, t);
    RemovedMaps(s, t, s.children[t].(stage := Failing));
  }

  lemma RemovedMaps(s: State, t: nat, child: Child)
    requires MapsOk(s.managed, s.registered, s.quitting, s.cleared, s.children) && t < |s.children|
    requires (s.children[t].Entered() || s.children[t].stage == Booting) && child.key == s.children[t].key
    ensures Removed(s, t, child).managed
            == if child.key in s.managed && s.managed[child.key] == t then s.managed - {child.key} else s.managed
    ensures Removed(s, t, child).registered
            == if child.key in s.registered && s.registered[child.key] == t then s.registered - {child.key}
               else s.registered
  {
    assert child.key in s.registered ==> s.registered[child.key] == t;
    if child.key !in s.registered { assert s.registered - {child.key} == s.registered; }
  }

  lemma CloseUndoes(s: State, t: nat)
    requires Inv(s) && t < |s.children|
    ensures ClosedBy(s, t).managed == WithoutOwner(s.managed, t)
    ensures ClosedBy(s, t).registered == WithoutOwner(s.registered, t)
  {
    OwnerIsUnderItsKey(s, t);
    if s.children[t].Entered() {
      RemovedMaps(s, t, s.children[t].(closed := true, handled := true));
    }
  }

  // ---------------------------------------------------------------- nobody is stuck

  /** The step that a running call waits for: its own next stretch, or an event of the one child it
      has started or stopped. Never another call of its subject. */
  function WaitsFor(s: State, ticket: nat): Step
    requires ticket < |s.jobs|
  {
    match s.jobs[ticket].at
    case Idle => Advance(ticket, Missing, true, Spawned)
    case Stopping(_) => StopReturned(ticket)
    case Starting(t) =>
      if t < |s.children| && s.children[t].stage == Spawning then SpawnEvent(t, true, true)
      else if t < |s.children| && s.children[t].stage == Booting then BootEvent(t, true)
      else ChildEnded(t)
  }

  lemma RunningIsNotStuck(steps: seq<Step>, ticket: nat)
    requires Holds(Run(steps), ticket)
    ensures Enabled(Run(steps), WaitsFor(Run(steps), ticket))
  {
    RunKeeps(steps);
  }
}
