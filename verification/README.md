# Verification of the JEA control plane's stateful protocols

This project models the parts of the desktop and web control plane whose correctness depends on the
order in which things happen, and proves properties of the models with Dafny. `dafny verify
dfyconfig.toml` checks all of it.

Each protocol is modelled twice, and the two are connected by proof:

- as **functions on a state** (`Published`, `Next`, `Run`, ...). One step is one stretch of code between
  two awaits, or one outside event; a run is any list of steps in any order. The theorems are about
  every run.
- as **classes with the source's fields**, updated in place by methods with the source's loops and early
  exits (`WebHostEventLog`, `StreamClient`, `Supervisor`, `ProjectionWatcher`, `AcpSessionManager`, ...).
  The contract of each method says that the fields afterwards are exactly what the function gives for
  the fields before. History that the source does not keep (what was emitted, answered, executed) is
  kept in extra fields.

The `...Outcomes`, `PermissionAnswers` and `EvolutionFields` modules say what each operation comes to for
maps, calls, events and fields, independently of how it is computed.

| file | what it models |
|---|---|
| `TextSplit`, `SseFraming` | splitting a stream that comes in arbitrary chunks; event-stream frames, as in sections 9.2.5 and 9.2.6 of the WHATWG HTML Living Standard |
| `EventLog`, `ResumableStream`, `WebClient`, `WireRuns` | the bounded server log, the hand-over of a connection, the resuming client, and both ends over a lossy link, event by event and character by character |
| `StartLock`, `Supervision`, `SupervisionOutcomes`, `DaemonSupervisor` | the per-subject start lock, domain ownership, rollback, what `start` and `ensure` come to, the process registry |
| `Projection`, `ProjectionRuns`, `ProjectionOutcomes`, `ProjectionBoard`, `ProjectionOrder`, `ProjectionWatcher` | the incremental publisher: which events a refresh sends, what they are made from and what they show, revisions, merged refreshes |
| `Permissions`, `PermissionAnswers`, `AcpSessions`, `AcpSessionManager`, `TextStream` | agent sessions, permission requests, and the text stream of a session |
| `Inspector`, `InspectorOutcomes`, `InspectorController` | the single-flight loader of the inspector, and what it shows |
| `ReportIndex` | the bounded report index against a linear scan |
| `CycleRecords`, `Json`, `EvolutionSanitize`, `EvolutionFields`, `ReactorProgress`, `ReactorAdapter`, `Notifications`, `Whitespace`, `Prelude` | record merging, sanitizers, the two reactor-progress adapters, notification cooldown |

## Where the code does less than one might expect

Each of these is a lemma; the condition under which the code is right is proved with it.

- **Event stream.** A client that missed `m` events loses none exactly when `m` is at most the limit
  minus one, because the hello takes a place in the log; with a limit of one or less `m` must be 0
  (`ExactBound`, `GaplessExactly`, `TooLateHasGap`).
- **Projection watcher, sessions.** When making or fingerprinting a view throws after the sessions were
  compared, their announcement is lost, and the next refresh does not make up for it
  (`ProjectionRuns.RefreshedKeeps`, `LostForGood`).
- **Projection watcher, what events show.** `evolution.updated` carries four of the seven fields that its
  fingerprint covers, and stripping and redaction take more out of events, such as the content of facts
  in the todo view. What no event shows never reaches a subscriber, and an event repeats what its
  partition said before exactly when the views differ only there (`RepeatsExactly`). The two counts of
  the evolution view are right after a full refresh exactly when the service or the todo view changed as
  well, or when what was shown before is still right (`RefreshShows`; `CountsUnseen` and `TodoUnseen` are
  inputs where an event shows nothing new).
- **Projection watcher, revisions.** They strictly increase from batch to batch, except when a runtime
  watcher publishes during its own `start` and then throws: the failure reuses the last revision
  (`WatchedEarlyCounted`, `ReuseHappens`). The default runtime watcher debounces its notices, so it
  publishes nothing during its start and the order always holds (`OrderlyRunCounted`); only an injected
  one can do otherwise.
- **Empty partition lists** ask for everything when they come first during a refresh and for nothing
  when they come later (`NoticesCollapse`).
- **Agent sessions.** A permission request that is opened or times out while its session is ready puts
  the session into a busy state that no turn can end; only a close or a process exit gets it out
  (`GetsStuck`, `StaysStuck`, `StuckAfterTimeout`). A cancel during the start of a session leaves a ready
  session with its cancel flag set (`ReadyButCancelled`); a session gets into that state in no other way
  (`ReadyCancelledExactly`), and the flag then stays exactly until a prompt is accepted or the process
  exits (`CancelledUntil`).
- **Inspector.** A switch of subject that waits for a running load happens exactly when no event and no
  `load` of yet another subject asks for a refresh before that load ends (`SwitchSurvives`;
  `SwitchIsLost` is the failing case). The revision of a load that ends while a switch is waiting stays
  on record for the new subject and can suppress its events (`RevisionOutlivesSwitch`); a dropped event
  repeats a load of its own subject exactly when that has not happened since the last `load` or the
  last end of a load with a revision (`DroppedExactly`).
- **Daemon supervisor.** A preparation that throws between opening the log files and creating the lease
  leaves both descriptors open; every other exit closes them (`LaunchChild`, `StartLocked`).
- **Web client.** An event whose cursor is `null`, with no number and no id, counts as position 0 and is
  dropped (`NullCursorIsDropped`).
- **Registry keys** are ambiguous for subjects with a colon (`ColonConfuses`).

## Model

| member | source | states |
|---|---|---|
| `TextSplit.ChunkingIsIrrelevant` | apps/desktop/src/client-api/adapters/web.ts:94-100 | for any pattern whose matches do not depend on later text, the reader that appends, splits and pops finds the same pieces however the text is cut into chunks |
| `TextSplit.PrefixSplits` | apps/desktop/src/client-api/adapters/web.ts:98-100 | of any prefix of a stream of records, the split gives exactly the records that lie in it whole and keeps a part of the next |
| `SseFraming.ParseSseBlock` | apps/desktop/src/client-api/adapters/web.ts:33-43 | the loop over the lines reads the id and the joined data lines of a block |
| `SseFraming.PatternsAreLawful` | apps/desktop/src/client-api/adapters/web.ts:99-100 | the two line-break patterns are such patterns |
| `SseFraming.FramesAreFramed` | apps/desktop/src/web-host/events.ts:60-62 | a formatted frame ends at its first blank line and nowhere before, whatever follows |
| `SseFraming.BlockReadsBack` | apps/desktop/src/web-host/events.ts:60-62 | the client reads from the block of a frame the id and the data that the server wrote |
| `SseFraming.StreamReadsBack` | apps/desktop/src/client-api/adapters/web.ts:94-108 | for all frames, all chunkings and all points of loss, the client gets the frames that arrived whole, in order, and keeps only a part of the next |
| `EventLog.PublishedHolds` | apps/desktop/src/web-host/events.ts:26-41 | after a publish the log holds the latest events of the history, as many as its limit allows |
| `EventLog.ReplayIsSuffix` | apps/desktop/src/web-host/events.ts:48-53 | a replay is the stretch of the history behind the cursor that is still in the log |
| `EventLog.HelloIsSentOnce` | apps/desktop/src/web-host/host.ts:221-227 | a replay that already contains the hello does not get it twice |
| `EventLog.OpeningIsSuffix` | apps/desktop/src/web-host/host.ts:216-227 | a new connection is sent one unbroken stretch of the history that ends with its hello; where it starts is given exactly |
| `EventLog.WebHostEventLog.Publish` | apps/desktop/src/web-host/events.ts:26-41 | every open connection is sent the new event once, and the log is as specified |
| `EventLog.WebHostEventLog.ReplayFrom` | apps/desktop/src/web-host/events.ts:48-53 | the events behind the cursor, none for a cursor that is absent or no number |
| `EventLog.WebHostEventLog.Unsubscribe` | apps/desktop/src/web-host/host.ts:234-237 | only the closed connection is removed |
| `EventLog.WebHostEventLog.HandleEvents` | apps/desktop/src/web-host/host.ts:216-233 | the new connection has been sent its opening, the others the hello, and it is subscribed to what follows |
| `EventLog.Connection.Offer` | apps/desktop/src/web-host/host.ts:223-232 | an event is written unless its number was delivered before |
| `ResumableStream.ExactBound` | apps/desktop/src/web-host/host.ts:217-227 | a reconnection skips nothing exactly when no more was missed than the limit less the place of the hello |
| `ResumableStream.NeverTwiceNeverBack` | apps/desktop/src/client-api/adapters/web.ts:59-67 | in every run of publishes, losses and reconnections the emitted numbers strictly increase and each event is the published one |
| `ResumableStream.ReadsTakeFirst` | apps/desktop/src/client-api/adapters/web.ts:95-108 | reading takes events off the connection in order |
| `ResumableStream.GaplessExactly` | apps/desktop/src/client-api/adapters/web.ts:59-119 | a run has a gap if and only if something was read from a connection that came too late |
| `ResumableStream.InTimeHasNoGap` | apps/desktop/src/client-api/adapters/web.ts:69-119 | a client whose reconnections are all in time reads from no late connection |
| `ResumableStream.InTimeEmitsHistory` | apps/desktop/src/client-api/adapters/web.ts:69-119 | such a client emits an unbroken stretch of the history: no gap, no duplicate |
| `ResumableStream.CaughtUp` | apps/desktop/src/web-host/host.ts:216-233 | a connected client that has read everything has emitted the latest event |
| `ResumableStream.TooLateHasGap` | apps/desktop/src/web-host/events.ts:37-38 | one event more than the bound always makes a gap |
| `WebClient.StreamClient.Emit` | apps/desktop/src/client-api/adapters/web.ts:59-67 | position from `seq` or cursor; what is not news is dropped; the cursor is kept |
| `WebClient.EmittedExactly` | apps/desktop/src/client-api/adapters/web.ts:59-67 | an event is handed on unless its position has been passed; the client moves there and resumes at the event's own cursor |
| `WebClient.HandledExactly` | apps/desktop/src/client-api/adapters/web.ts:101-107 | a block without data is skipped, one that is no JSON ends the connection, any other hands its event on with the id for a missing cursor |
| `WebClient.NullCursorIsDropped` | apps/desktop/src/client-api/adapters/web.ts:59-65 | an event with the cursor `null`, no number and no id is dropped |
| `WebClient.StreamClient.Receive` | apps/desktop/src/client-api/adapters/web.ts:98-107 | one chunk: complete blocks are handled in order until one throws, the rest is kept |
| `WebClient.ReceivedIsHandled` | apps/desktop/src/client-api/adapters/web.ts:94-108 | chunk by chunk the client ends as with all blocks at hand |
| `WebClient.CursorTravels` | apps/desktop/src/client-api/adapters/web.ts:74-78 | the cursor that is sent back stands for the position the client has reached |
| `WebClient.ConnectionIsRead` | apps/desktop/src/client-api/adapters/web.ts:94-108 | for the text of a connection in any chunks up to any loss, the client ends in the protocol state of having read exactly the events that arrived whole |
| `WireRuns.StepSimulates` | apps/desktop/src/client-api/adapters/web.ts:69-119 | each step on the wire, a chunk of any size included, does to both ends what steps of the protocol do |
| `WireRuns.WireRunIsOrdered` | apps/desktop/src/client-api/adapters/web.ts:59-119 | in every run over the characters on the wire, the client has handed on events of the history in order and once, and skipped one if and only if it read from a connection that came too late |
| `WireRuns.TimelyRunEmitsHistory` | apps/desktop/src/client-api/adapters/web.ts:69-119 | a client that always reconnects in time has handed on an unbroken stretch of the history, whatever the chunks and wherever connections broke off |
| `StartLock.MutualExclusion` | apps/desktop/src/main/daemon-supervisor.ts:816-825 | two bodies of one subject never run at the same time |
| `StartLock.FirstComeFirstServed` | apps/desktop/src/main/daemon-supervisor.ts:816-825 | a body that has begun came after only finished ones |
| `StartLock.SomeoneMayGo` | apps/desktop/src/main/daemon-supervisor.ts:816-825 | a waiting body waits for one that runs or may begin, however the earlier ones ended |
| `StartLock.EntryAbsentExactly` | apps/desktop/src/main/daemon-supervisor.ts:816-825 | the lock map has no entry for a subject exactly when all its calls are done and the newest has run its `finally` |
| `Supervision.KeyStringsAreDistinct` | apps/desktop/src/main/daemon-supervisor.ts:90-96 | for subjects without a colon the key strings tell all keys apart |
| `Supervision.ColonConfuses` | apps/desktop/src/main/daemon-supervisor.ts:94-96 | with a colon they do not |
| `Supervision.DomainsStayApart` | apps/desktop/src/main/daemon-supervisor.ts:348-353 | in every interleaving, live entries of one subject have domains that do not overlap |
| `Supervision.RegistryMatchesManaged` | apps/desktop/src/main/daemon-supervisor.ts:481-527 | until shutdown has finished, registry and managed map hold the same starts |
| `Supervision.FailedLeavesNothing` | apps/desktop/src/main/daemon-supervisor.ts:476-553 | a failed start has no entry, registration, lease or renewal left |
| `Supervision.RenewalOnlyWhileManaged` | apps/desktop/src/main/daemon-supervisor.ts:741-765 | a lease is renewed only while its start is managed |
| `Supervision.OtherStartsAreUntouched` | apps/desktop/src/main/daemon-supervisor.ts:515-527 | no late or repeated event of one start takes away another start's entry, registration or renewal |
| `Supervision.SpawnFailureUndoes` | apps/desktop/src/main/daemon-supervisor.ts:471-540 | a start that fails at spawn, registration or first renewal leaves both maps as they were |
| `Supervision.BootFailureUndoes` | apps/desktop/src/main/daemon-supervisor.ts:541-553 | a start that fails to boot takes out its own entries and nothing else |
| `Supervision.CloseUndoes` | apps/desktop/src/main/daemon-supervisor.ts:515-527 | so does the close of a child |
| `Supervision.RunningIsNotStuck` | apps/desktop/src/main/daemon-supervisor.ts:316-346 | a lock holder waits for its own next step or its own child, never for another call |
| `SupervisionOutcomes.StartOutcome` | apps/desktop/src/main/daemon-supervisor.ts:348-469 | a holder of the lock that starts a domain gets a child with its key and lease if and only if no running entry of the subject overlaps the domain and nothing outside is in the way; if the domain is served only the task goes; otherwise the call fails and leaves nothing |
| `SupervisionOutcomes.EnsureOutcome` | apps/desktop/src/main/daemon-supervisor.ts:316-337 | a fresh worker, and a stale one that is not ours, is kept; a stale or zombie one of ours is stopped and then started, or the call fails if it is not our process; with none, or a zombie that is not ours, the domain is started |
| `SupervisionOutcomes.RequestOutcome` | apps/desktop/src/main/daemon-supervisor.ts:339-346 | a call waits with its tasks; ensuring all domains is the cycle worker first, then the channel worker |
| `SupervisionOutcomes.EnsuresAreSingle` | apps/desktop/src/main/daemon-supervisor.ts:339-346 | in every run only the two single domains are ensured |
| `SupervisionOutcomes.LaunchOutcome` | apps/desktop/src/main/daemon-supervisor.ts:355-469 | how far a start gets is decided in the order of its steps, each outcome exactly |
| `SupervisionOutcomes.NoSpawnOutcome` | apps/desktop/src/main/daemon-supervisor.ts:471-479 | a child that does not spawn fails its call, with its lease gone |
| `SupervisionOutcomes.SpawnOutcome` | apps/desktop/src/main/daemon-supervisor.ts:481-540 | one that does is managed, registered and renewed, unless its key is taken, a shutdown is under way or the first renewal fails; then both maps are as they were |
| `SupervisionOutcomes.BootOutcome` | apps/desktop/src/main/daemon-supervisor.ts:541-559 | a worker that reports makes its task done and stays managed |
| `SupervisionOutcomes.BootFailureOutcome` | apps/desktop/src/main/daemon-supervisor.ts:541-553 | one that does not leaves the maps, and its call waits for the child to end |
| `SupervisionOutcomes.FailureOutcome` | apps/desktop/src/main/daemon-supervisor.ts:492-553 | then the whole call fails and gives the lock on |
| `SupervisionOutcomes.StopOutcome` | apps/desktop/src/main/daemon-supervisor.ts:588-600 | a stop marks the entry and ends its renewal |
| `SupervisionOutcomes.CloseOutcome` | apps/desktop/src/main/daemon-supervisor.ts:515-527 | the close of a managed child takes its entry, registration and lease away |
| `SupervisionOutcomes.ExitOutcome` | apps/desktop/src/main/daemon-supervisor.ts:81-83 | an exited child no longer runs, and nothing else changes until it closes |
| `SupervisionOutcomes.RenewalOutcome` | apps/desktop/src/main/daemon-supervisor.ts:741-765 | a renewal that fails is the last of that start |
| `SupervisionOutcomes.QuitOutcome` | apps/desktop/src/main/managed-process-registry.ts:24-53 | from a shutdown on no child is entered, and when it is through nothing is registered |
| `DaemonSupervisor.ManagedProcessRegistry.Register` | apps/desktop/src/main/managed-process-registry.ts:24-30 | refused during shutdown or when the key is taken |
| `DaemonSupervisor.Supervisor.Release` | apps/desktop/src/main/daemon-supervisor.ts:816-825 | the map entry goes only if it is still this call's |
| `DaemonSupervisor.Supervisor.StartLocked` | apps/desktop/src/main/daemon-supervisor.ts:348-469 | the synchronous part of a start; as many log files are open after it as before, if and only if it does not get as far as a preparation that throws |
| `DaemonSupervisor.Supervisor.LaunchChild` | apps/desktop/src/main/daemon-supervisor.ts:394-469 | the log descriptors are closed if and only if the logs never opened or the preparation does not throw; the lease goes if the spawn throws |
| `DaemonSupervisor.Supervisor.OnSpawn` | apps/desktop/src/main/daemon-supervisor.ts:471-540 | registration, entry and first renewal, each undone when it fails; no other key is touched |
| `DaemonSupervisor.Supervisor.OnBoot` | apps/desktop/src/main/daemon-supervisor.ts:541-559 | the end of the boot wait, with rollback; no other key is touched |
| `DaemonSupervisor.Supervisor.OnChildEnded` | apps/desktop/src/main/daemon-supervisor.ts:492-553 | a failed start throws once its child has ended |
| `DaemonSupervisor.Supervisor.EnsureOne` | apps/desktop/src/main/daemon-supervisor.ts:316-337 | fresh, stale, zombie and missing workers, owned or not |
| `DaemonSupervisor.Supervisor.StopThenStart` | apps/desktop/src/main/daemon-supervisor.ts:325-329 | the restart of an owned worker stops it first |
| `DaemonSupervisor.Supervisor.StopOwned` | apps/desktop/src/main/daemon-supervisor.ts:588-627 | refused for a process that is not the entry's own; otherwise the entry is marked and its renewal ends, once, and no other entry changes |
| `DaemonSupervisor.Supervisor.OnClose` | apps/desktop/src/main/daemon-supervisor.ts:515-527 | the close handler acts only for the start that is managed: a late close changes nothing, and no other key is touched |
| `Projection.SessionChangesTraced` | apps/desktop/src/main/projection-watcher.ts:444-458 | the announced changes take a subscriber from the previous set of sessions to the next |
| `Projection.PartitionsTraced` | apps/desktop/src/main/projection-watcher.ts:357-438 | after the events of a full refresh the last event of each partition was made from a view with the new fingerprint, none from the same view as the one before, and the counts were last sent from the new views exactly if the service or the todo view differs |
| `Projection.EventsShowTheFetch` | apps/desktop/src/main/projection-watcher.ts:379-438 | an event goes out if and only if its partition differs, made from the views of one fetch, and nothing else does |
| `ProjectionRuns.RefreshedKeeps` | apps/desktop/src/main/projection-watcher.ts:307-442 | one refresh, however its fetch re-enters the watcher, keeps the last events made from views with the kept fingerprints, and keeps subscribers in step with the sessions if and only if it does not take the losing branch |
| `ProjectionRuns.RunKeeps` | apps/desktop/src/main/projection-watcher.ts:222-305 | in every run, consecutive events of a partition are made from views that differ, the latest from one with the fingerprint that is kept; unless a view throws late, the sessions announced and not removed are those that are kept |
| `ProjectionRuns.LostForGood` | apps/desktop/src/main/projection-watcher.ts:357-378 | a view that throws after the sessions were compared loses their announcement beyond the next refresh |
| `ProjectionOutcomes.FullRefreshSends` | apps/desktop/src/main/projection-watcher.ts:316-438 | a refresh that asks for more than sessions and a kept channel sends exactly the partitions that differ, all of them the first time, and the session changes if and only if they are asked for, in one batch with the next revision |
| `ProjectionOutcomes.ChannelRefreshSends` | apps/desktop/src/main/projection-watcher.ts:316-351 | any other sends the session changes if they are asked for, then the channel view if and only if one is kept and it differs, and nothing of the other partitions |
| `ProjectionOutcomes.FailedRefreshSends` | apps/desktop/src/main/projection-watcher.ts:439-442 | a refresh that fails sends the two failure events while its watch lasts, and nothing after |
| `ProjectionOutcomes.WatchOutcome` | apps/desktop/src/main/projection-watcher.ts:222-250 | watching the watched subject changes nothing; any other watch is new in every field, or sends its failure |
| `ProjectionOutcomes.StopOutcome` | apps/desktop/src/main/projection-watcher.ts:256-273 | a stop resets everything that belongs to the watch and sends nothing |
| `ProjectionOutcomes.SessionIsAnnounced` | apps/desktop/src/main/projection-watcher.ts:444-458 | a session is announced if and only if its fingerprint is new or changed, and removed if and only if it was there and is gone |
| `ProjectionOutcomes.PrintsAreSessions` | apps/desktop/src/main/projection-watcher.ts:159-167 | the fingerprints are those of the sessions, each id once, with its last text |
| `ProjectionBoard.BoardIsVisible` | apps/desktop/src/main/projection-watcher.ts:388-437 | what a subscriber was shown is, of the views behind the last events, what their payloads carry |
| `ProjectionBoard.RunAgrees` | apps/desktop/src/main/projection-watcher.ts:222-442 | in every run, a subscriber of the current watch was shown last, for each partition, a view with the fingerprint that is kept; unless a view throws late, it knows exactly the sessions that are kept |
| `ProjectionBoard.RefreshShows` | apps/desktop/src/main/projection-watcher.ts:316-442 | after a refresh, in any run, that asks for more than sessions and a kept channel, publishing differences has shown the subscriber what publishing everything would have, the counts included if and only if an event that carries them went out or they had not changed |
| `ProjectionBoard.RepeatsExactly` | apps/desktop/src/main/projection-watcher.ts:379-438 | in every run, an event says of its partition what the event before said if and only if the views differ in nothing but what neither shows |
| `ProjectionBoard.CountsUnseen` | apps/desktop/src/main/projection-watcher.ts:416-430 | when only the counts change, one event goes out and the subscriber keeps the old counts |
| `ProjectionBoard.TodoUnseen` | apps/desktop/src/main/projection-watcher.ts:361-415 | when only what stripping takes out of the todo view changes, one event goes out that repeats what is shown of it |
| `ProjectionBoard.FirstRefreshIsCurrent` | apps/desktop/src/main/projection-watcher.ts:222-250 | states in which that can happen are reached by a watch and its first refresh |
| `ProjectionOrder.CalledCounted` | apps/desktop/src/main/projection-watcher.ts:222-305 | a call keeps batches in order of revision and generation if and only if it does not reuse a revision |
| `ProjectionOrder.WatchedEarlyCounted` | apps/desktop/src/main/projection-watcher.ts:231-248 | `watch` reuses one exactly when its runtime watcher publishes in `start` and then throws |
| `ProjectionOrder.ReuseHappens` | apps/desktop/src/main/projection-watcher.ts:244-248 | a watch whose runtime watcher asks for one refresh in its start and then throws reuses a revision |
| `ProjectionOrder.RunCounted` | apps/desktop/src/main/projection-watcher.ts:256-273 | otherwise revisions strictly increase over the whole life, despite the decrements and across stops, and no event of an old watch follows one of a newer watch |
| `ProjectionOrder.OrderlyRunCounted` | apps/desktop/src/main/projection-watcher.ts:256-273 | revisions strictly increase in every run in which no runtime watcher both publishes in its start and throws |
| `ProjectionOrder.AskedGrows` | apps/desktop/src/main/projection-watcher.ts:313-335 | within a watch the revision is that of the last event published, or where it was |
| `ProjectionOrder.NoticesCollapse` | apps/desktop/src/main/projection-watcher.ts:286-291 | any number of notices during a refresh become one set of partitions that covers them, `all` absorbing |
| `ProjectionOrder.OneFollowUp` | apps/desktop/src/main/projection-watcher.ts:298-304 | they lead to exactly one more refresh, for that set |
| `ProjectionOrder.RunRests` | apps/desktop/src/main/projection-watcher.ts:279-305 | between calls no refresh is under way and none is owed, in every run |
| `ProjectionWatcher.ProjectionWatcher.Watch` | apps/desktop/src/main/projection-watcher.ts:222-250 | a new generation, or nothing if the subject is watched already |
| `ProjectionWatcher.ProjectionWatcher.Stop` | apps/desktop/src/main/projection-watcher.ts:256-273 | everything that belongs to the watch is reset, and revision and generation go up |
| `ProjectionWatcher.ProjectionWatcher.Publish` | apps/desktop/src/main/projection-watcher.ts:279-305 | refresh, defer while one is under way, follow up |
| `ProjectionWatcher.ProjectionWatcher.PublishOnce` | apps/desktop/src/main/projection-watcher.ts:307-442 | one refresh, with its early exits |
| `ProjectionWatcher.ProjectionWatcher.PublishChannel` | apps/desktop/src/main/projection-watcher.ts:323-351 | the channel and conversation branch |
| `ProjectionWatcher.ProjectionWatcher.PublishAll` | apps/desktop/src/main/projection-watcher.ts:357-438 | the full branch |
| `ProjectionWatcher.ProjectionWatcher.ChangedConversationSessions` | apps/desktop/src/main/projection-watcher.ts:444-458 | the changes between the kept and the new session fingerprints |
| `ProjectionWatcher.ProjectionWatcher.PublishFailure` | apps/desktop/src/main/projection-watcher.ts:482-500 | failure events only for the watch that is current |
| `Permissions.RejectRejects` | apps/desktop/src/main/acp-permission-broker.ts:21-27 | an automatic selection is an option of the request that rejects |
| `Permissions.AskedKeeps` | apps/desktop/src/main/acp-permission-broker.ts:74-131 | a new request is announced once and pending, or resolved at once |
| `Permissions.TimedOutKeeps` | apps/desktop/src/main/acp-permission-broker.ts:95-106 | a timeout keeps the account of requests, answers and events |
| `Permissions.RespondedKeeps` | apps/desktop/src/main/acp-permission-broker.ts:136-159 | so does an operator's answer |
| `Permissions.CancelledSessionKeeps` | apps/desktop/src/main/acp-permission-broker.ts:161-173 | so does a cancellation, which leaves the session nothing pending and other sessions alone |
| `Permissions.FirstAnswerStands` | apps/desktop/src/main/acp-permission-broker.ts:95-97 | a second timeout or answer finds the request gone and changes nothing |
| `Permissions.AllowedByOperator` | apps/desktop/src/main/acp-permission-broker.ts:136-159 | a selected option that does not reject comes from an operator and is an option of that request |
| `PermissionAnswers.ResponseIsTold` | apps/desktop/src/main/acp-permission-broker.ts:136-159 | an accepted response tells the agent exactly the option that was named, or that it is cancelled, once, and is announced as allowed if and only if the first option with that id allows |
| `PermissionAnswers.RefusedExactly` | apps/desktop/src/main/acp-permission-broker.ts:137-146 | a response is refused exactly for a request that is not pending or not of the session, and otherwise for an option it does not have |
| `PermissionAnswers.OperatorIsObeyed` | apps/desktop/src/main/acp-permission-broker.ts:136-159 | in every run, what an agent was told for an operator is the option of a response that was accepted for that request |
| `PermissionAnswers.RejectsExactly` | apps/desktop/src/main/acp-permission-broker.ts:21-27 | an automatic rejection selects the first option that rejects once, else the first that always rejects, and with neither cancels |
| `PermissionAnswers.RequestIsTold` | apps/desktop/src/main/acp-permission-broker.ts:74-131 | a request that needs review waits and is announced; any other is rejected at once |
| `PermissionAnswers.TimeoutIsTold` | apps/desktop/src/main/acp-permission-broker.ts:95-106 | a timeout rejects and is announced |
| `PermissionAnswers.EndingIsTold` | apps/desktop/src/main/acp-permission-broker.ts:161-173 | a cancel, exit, close or failed start answers all pending requests of its session, and no others, with `cancelled`, and announces each with its reason |
| `AcpSessions.RunKeeps` | apps/desktop/src/main/acp-session-manager.ts:342-509 | the invariant of sessions, turns and requests holds in every run |
| `AcpSessions.OnePromptAtATime` | apps/desktop/src/main/acp-session-manager.ts:342-385 | at most one `runtime.prompt` is outstanding per session |
| `AcpSessions.ReadyIsIdle` | apps/desktop/src/main/acp-session-manager.ts:342-385 | ready means no turn, outstanding or active, and a cancel request exactly when one came before the start returned, with no prompt and no process exit since |
| `AcpSessions.ReadyCancelledExactly` | apps/desktop/src/main/acp-session-manager.ts:314-323 | a session becomes ready with a cancel request if and only if its start returns, or is refused registration, while the request is there |
| `AcpSessions.CancelledUntil` | apps/desktop/src/main/acp-session-manager.ts:342-353 | the request then stays exactly until a prompt is accepted or the process exits |
| `AcpSessions.ReadyButCancelled` | apps/desktop/src/main/acp-session-manager.ts:387-396 | which happens when a session is cancelled during its start |
| `AcpSessions.StatusIsShown` | apps/desktop/src/main/acp-session-manager.ts:511-517 | the status last published is the status |
| `AcpSessions.WorkIsShown` | apps/desktop/src/main/acp-session-manager.ts:342-353 | in every run a session with a turn under way is prompting or awaiting permission unless it is being cancelled or closed, and a cancelling one was asked to |
| `AcpSessions.PromptOutcome` | apps/desktop/src/main/acp-session-manager.ts:348-353 | an accepted prompt makes the session prompting, with a turn of its own, and can be cancelled |
| `AcpSessions.TurnOutcome` | apps/desktop/src/main/acp-session-manager.ts:355-385 | the current turn leaves its session ready if it succeeded or was cancelled and failed otherwise; any other turn changes nothing |
| `AcpSessions.AnswerOutcome` | apps/desktop/src/main/acp-session-manager.ts:418-426 | after an answer the session prompts again exactly when nothing else is pending, and can be cancelled |
| `AcpSessions.PermissionOutcome` | apps/desktop/src/main/acp-session-manager.ts:291-296 | a request makes an open session await permission; a timeout leaves it so exactly while something else is pending |
| `AcpSessions.EndingOutcome` | apps/desktop/src/main/acp-session-manager.ts:387-509 | a cancel, close, exit and end of a close are each shown at once |
| `AcpSessions.ResolvedOnce` | apps/desktop/src/main/acp-permission-broker.ts:93-173 | over any race of timeout, answer and cancellation a reviewable request is announced, resolved and answered once each, and pending until then |
| `AcpSessions.NothingTurnsBack` | apps/desktop/src/main/acp-session-manager.ts:428-452 | in every run: a failed session gets no further turn, a closing one only becomes closed, a gone one never changes, and its runtime is closed at most once |
| `AcpSessions.FailsExactly` | apps/desktop/src/main/acp-session-manager.ts:368-384 | a session fails exactly by an unexpected process exit or an uncancelled failure of its current turn |
| `AcpSessions.EndsClearPending` | apps/desktop/src/main/acp-session-manager.ts:387-398 | cancel, exit, close and failed start leave no permission pending |
| `AcpSessions.RunAwaitsPending` | apps/desktop/src/main/acp-session-manager.ts:291-296 | a session is awaiting permission only while one of its requests is pending |
| `AcpSessions.GetsStuck` | apps/desktop/src/main/acp-session-manager.ts:291-296 | a session becomes busy without a turn if and only if a request is opened or times out while it is ready |
| `AcpSessions.StaysStuck` | apps/desktop/src/main/acp-session-manager.ts:345-347 | and stays so until it fails or closes |
| `AcpSessions.StuckAfterTimeout` | apps/desktop/src/main/acp-permission-broker.ts:95-100 | which happens whenever a turn succeeds with a request open that then times out |
| `AcpSessionManager.AcpPermissionBroker.Open` | apps/desktop/src/main/acp-permission-broker.ts:62-131 | the handler |
| `AcpSessionManager.AcpPermissionBroker.OnTimeout` | apps/desktop/src/main/acp-permission-broker.ts:95-106 | the timer |
| `AcpSessionManager.AcpPermissionBroker.Decide` | apps/desktop/src/main/acp-permission-broker.ts:136-159 | the operator's answer, with both refusals |
| `AcpSessionManager.AcpPermissionBroker.CancelAll` | apps/desktop/src/main/acp-permission-broker.ts:161-173 | the loop over the pending requests |
| `AcpSessionManager.AcpSessionManager.OnRuntime` | apps/desktop/src/main/acp-session-manager.ts:314-323 | the runtime is there: ready, or undone when it cannot be registered |
| `AcpSessionManager.AcpSessionManager.OnStartFailed` | apps/desktop/src/main/acp-session-manager.ts:324-339 | the failed start |
| `AcpSessionManager.AcpSessionManager.OnPermissionTimeout` | apps/desktop/src/main/acp-session-manager.ts:291-296 | the status after a timeout depends on what is still pending |
| `AcpSessionManager.AcpSessionManager.RespondPermission` | apps/desktop/src/main/acp-session-manager.ts:418-426 | the answer and the status after it |
| `AcpSessionManager.AcpSessionManager.PromptBegins` | apps/desktop/src/main/acp-session-manager.ts:342-353 | a prompt is accepted only by a ready session; other sessions are unchanged |
| `AcpSessionManager.AcpSessionManager.OnPromptSettled` | apps/desktop/src/main/acp-session-manager.ts:355-385 | the end of a turn, cancelled or not; one that is not current changes no session |
| `AcpSessionManager.AcpSessionManager.CancelTurn` | apps/desktop/src/main/acp-session-manager.ts:387-398 | cancel only while busy |
| `AcpSessionManager.AcpSessionManager.HandleProcessExit` | apps/desktop/src/main/acp-session-manager.ts:482-509 | an unexpected exit fails the session, an expected one changes nothing |
| `AcpSessionManager.AcpSessionManager.CloseBegins` | apps/desktop/src/main/acp-session-manager.ts:428-439 | only the first close does anything, to its session only |
| `TextStream.BoundaryIsLast` | apps/desktop/src/main/acp-session-manager.ts:58-61 | the cut is after white space, not inside the protected tail, and as late as that allows |
| `TextStream.NothingIsLost` | apps/desktop/src/main/acp-session-manager.ts:52-71 | published and pending text are the input, and every chunk from `append` ends in white space |
| `TextStream.FlushedIsInput` | apps/desktop/src/main/acp-session-manager.ts:67-71 | after a flush the published chunks concatenate to the input |
| `TextStream.TailIsKept` | apps/desktop/src/main/acp-session-manager.ts:53-65 | the protected tail is kept back whole, and so is the word before it |
| `TextStream.DesktopTextStream.Append` | apps/desktop/src/main/acp-session-manager.ts:52-65 | the scanning loop finds that cut |
| `Inspector.LoadsNeverOverlap` | packages/jea-app/src/features/evolution/controller.ts:40-148 | at most one load runs, so the generation guard never discards a result |
| `InspectorOutcomes.LoadShows` | packages/jea-app/src/features/evolution/controller.ts:40-107 | a whole load shows its subject, selects the preferred cycle if it is listed and the default otherwise, and has the details of what is selected, fetched for the subject |
| `InspectorOutcomes.BeginOutcome` | packages/jea-app/src/features/evolution/controller.ts:45-65 | a load begins with the subject's own details and no others |
| `InspectorOutcomes.ListOutcome` | packages/jea-app/src/features/evolution/controller.ts:71-98 | the list decides which cycle is selected, whose details are fetched and which kept details stay |
| `InspectorOutcomes.DetailsOutcome` | packages/jea-app/src/features/evolution/controller.ts:99-106 | the fetched details join those that stay, and nothing else changes |
| `InspectorOutcomes.LoadIsLeftAlone` | packages/jea-app/src/features/evolution/controller.ts:158-191 | no request, event or selection moves a running load |
| `InspectorOutcomes.SelectOutcome` | packages/jea-app/src/features/evolution/controller.ts:158-164 | a cycle whose details are there is selected at once, others are fetched for the subject |
| `InspectorOutcomes.SelectionOutcome` | packages/jea-app/src/features/evolution/controller.ts:164-173 | when they come in the same generation the cycle is selected and its details are there |
| `InspectorOutcomes.EventOutcome` | packages/jea-app/src/features/evolution/controller.ts:175-191 | an event prefers its own cycle, is dropped exactly if it repeats what is on record, and waits during a load |
| `InspectorOutcomes.StaleOutcome` | packages/jea-app/src/features/evolution/controller.ts:177-183 | a stale event marks the snapshot and nothing else |
| `Inspector.IdleIsConsistent` | packages/jea-app/src/features/evolution/controller.ts:40-174 | when idle, the subject is that of the last accepted request and all cached details were fetched for it, even with selections racing loads |
| `Inspector.BurstCollapses` | packages/jea-app/src/features/evolution/controller.ts:115-126 | requests during a load start nothing; the last one that is no repetition waits |
| `Inspector.LastAcceptedRuns` | packages/jea-app/src/features/evolution/controller.ts:127-147 | when the load ends, exactly the last accepted request is loaded, unless it has become a repetition |
| `Inspector.SwitchSurvives` | packages/jea-app/src/features/evolution/controller.ts:109-147 | a switch asked for during a load happens when the load ends if and only if no event, and no `load` of yet another subject, comes in between |
| `Inspector.SwitchIsLost` | packages/jea-app/src/features/evolution/controller.ts:123-126 | an event during a load replaces a waiting switch of subject |
| `Inspector.RevisionOutlivesSwitch` | packages/jea-app/src/features/evolution/controller.ts:130-133 | the revision of a load that ends after a switch was asked for suppresses an event of the new subject |
| `Inspector.DroppedExactly` | packages/jea-app/src/features/evolution/controller.ts:115-136 | in every run, a dropped event repeats revision and cycle of the load on record, which was a load of its subject if and only if that load was not overtaken by a switch |
| `Inspector.RunRecords` | packages/jea-app/src/features/evolution/controller.ts:128-136 | in every run the revision on record is that of a load, for the subject that is shown unless it was overtaken |
| `InspectorController.InspectorController.LoadNow` | packages/jea-app/src/features/evolution/controller.ts:45-70 | a load up to its first await |
| `InspectorController.InspectorController.LoadCoalesced` | packages/jea-app/src/features/evolution/controller.ts:109-127 | drop, queue or load |
| `InspectorController.InspectorController.HandleEvent` | packages/jea-app/src/features/evolution/controller.ts:175-191 | the request an event makes |
| `InspectorController.InspectorController.OnList` | packages/jea-app/src/features/evolution/controller.ts:71-98 | which cycle is selected and whose details are fetched |
| `InspectorController.InspectorController.OnDetails` | packages/jea-app/src/features/evolution/controller.ts:99-106 | the fetched details join those that were kept |
| `InspectorController.InspectorController.OnLoadEnd` | packages/jea-app/src/features/evolution/controller.ts:128-148 | revision recorded, slot freed, queue drained |
| `InspectorController.InspectorController.SelectCycle` | packages/jea-app/src/features/evolution/controller.ts:158-164 | select at once or fetch first; no load is disturbed |
| `InspectorController.InspectorController.OnSelection` | packages/jea-app/src/features/evolution/controller.ts:164-173 | fetched details of an outdated selection leave the snapshot as it is |
| `ReportIndex.Build` | apps/desktop/src/client-api/owners/evolution-verify-index.ts:98-115 | the index answers every key as a linear scan for the first item with that key |
| `ReportIndex.ScanIsFind` | apps/desktop/src/client-api/owners/evolution-verify-index.ts:77-96 | that scan is the one for the first readable file that matches the cycle |
| `ReportIndex.ScanRecordsIsFind` | apps/desktop/src/client-api/owners/evolution-verify-index.ts:135-145 | the same for the records of the intelligence store |
| `ReportIndex.RememberedKeeps` | apps/desktop/src/client-api/owners/evolution-verify-index.ts:43-56 | the entry just stored stays, the others keep their order, and only the oldest goes when there are more than eight |
| `ReportIndex.EveryLookupIsAScan` | apps/desktop/src/client-api/owners/evolution-verify-index.ts:117-129 | for every interleaving of lookups, changed directories, evictions and resets, each lookup answers as the scan, and the cache holds at most eight entries |
| `ReportIndex.ReportCache.Remember` | apps/desktop/src/client-api/owners/evolution-verify-index.ts:43-56 | the loop that evicts the oldest entries |
| `ReportIndex.ReportCache.Lookup` | apps/desktop/src/client-api/owners/evolution-verify-index.ts:120-128 | hit or rebuild, the answer is the scan's |
| `ReportIndex.LookupVerifyReport` | apps/desktop/src/client-api/owners/evolution-verify-index.ts:117-129 | the view of the first readable file that matches, or no view |
| `ReportIndex.LookupIntelReport` | apps/desktop/src/client-api/owners/evolution-verify-index.ts:147-163 | the first record of the cycle, or none |
| `CycleRecords.MergeIs` | packages/jea-app/src/features/evolution/projection.ts:185-205 | ids are the union, each once, in order of first occurrence in incoming then current; incoming records win |
| `CycleRecords.MergeIsAssociative` | packages/jea-app/src/features/evolution/projection.ts:185-205 | merging is associative for all lists |
| `CycleRecords.MergeIsIdempotent` | packages/jea-app/src/features/evolution/projection.ts:185-205 | merging again what was merged changes nothing |
| `CycleRecords.MergeCycleRecords` | packages/jea-app/src/features/evolution/projection.ts:185-205 | the loops over map, set and list compute the merge |
| `EvolutionSanitize.CollectUnique` | packages/jea-app/src/features/evolution/sanitize.ts:30-40 | the loop gives the distinct trimmed strings in order of first occurrence |
| `EvolutionSanitize.CollectSteps` | packages/jea-app/src/features/evolution/sanitize.ts:52-62 | the loop over the entries of a steps record |
| `EvolutionSanitize.CollectCycles` | packages/jea-app/src/features/evolution/sanitize.ts:81-89 | the loop over the cycles of a list, first occurrence of an id wins |
| `EvolutionSanitize.BlockersHoldErrors` | packages/jea-app/src/features/evolution/sanitize.ts:98-107 | blockers are distinct, trimmed and not empty, and hold every error of a step |
| `EvolutionSanitize.BlockersAgain` | packages/jea-app/src/features/evolution/sanitize.ts:104-107 | folding step errors in once more adds nothing |
| `EvolutionSanitize.DetailIsIdempotent` | packages/jea-app/src/features/evolution/sanitize.ts:98-118 | sanitizing a sanitized cycle detail changes nothing, for every JSON value |
| `EvolutionSanitize.ListIsIdempotent` | packages/jea-app/src/features/evolution/sanitize.ts:77-96 | the same for a cycle list, whose ids are distinct and trimmed |
| `EvolutionFields.StepFromRaw` | packages/jea-app/src/features/evolution/sanitize.ts:42-50 | a step without a status is pending; the other fields are the raw texts |
| `EvolutionFields.StepsFromRaw` | packages/jea-app/src/features/evolution/sanitize.ts:52-62 | each name has one step, that of its last entry |
| `EvolutionFields.DetailFromRaw` | packages/jea-app/src/features/evolution/sanitize.ts:98-118 | each field of a detail from the raw value; a blocker is a raw blocker or the error of a step |
| `EvolutionFields.SummaryFromRaw` | packages/jea-app/src/features/evolution/sanitize.ts:64-75 | each field of a cycle from the raw value |
| `EvolutionFields.CyclesFromRaw` | packages/jea-app/src/features/evolution/sanitize.ts:81-89 | a cycle is listed exactly if it is the first raw item with its id |
| `EvolutionFields.ListFromRaw` | packages/jea-app/src/features/evolution/sanitize.ts:77-96 | the subject stands in for a missing namespace, the number of cycles for a missing count |
| `ReactorProgress.CollectReactors` | packages/jea-app/src/features/reactor-progress.ts:153-162 | the loop over the reactors keeps those with two valid lanes |
| `ReactorProgress.SanitizedAgain` | packages/jea-app/src/features/reactor-progress.ts:132-240 | what was sanitized, sent with further fields and sanitized at any later time, is unchanged |
| `ReactorProgress.SanitizingIsIdempotent` | packages/jea-app/src/features/reactor-progress.ts:132-240 | sanitizing twice is sanitizing once, whatever the clock says the second time |
| `ReactorProgress.ArrayNamesLane` | packages/jea-app/src/features/reactor-progress.ts:191-205 | an array that holds the name of a lane is taken for that lane |
| `ReactorAdapter.AdaptReactorCounts` | apps/desktop/src/client-api/reactor-progress.ts:59-72 | the client's loop over the reactors |
| `ReactorAdapter.EntriesAgree` | apps/desktop/src/client-api/reactor-progress.ts:38-72 | both loops keep the same reactors with the same counts |
| `ReactorAdapter.AcceptanceAgrees` | apps/desktop/src/client-api/reactor-progress.ts:78-90 | both adapters accept the same snapshots |
| `ReactorAdapter.AdaptersAgree` | apps/desktop/src/client-api/reactor-progress.ts:78-177 | for every JSON value and every clock the two separately written adapters agree on all fields they share |
| `ReactorAdapter.SanitizingAfterAdapting` | apps/desktop/src/client-api/reactor-progress.ts:78-177 | sanitizing what the client adapted is sanitizing alone, at any later time |
| `ReactorAdapter.AdaptingIsIdempotent` | apps/desktop/src/client-api/reactor-progress.ts:78-177 | adapting twice is adapting once |
| `ReactorProgress.SumLane` | packages/jea-app/src/features/reactor-progress.ts:293-305 | the loop sums one count over the reactors; positive exactly when one of them is |
| `ReactorProgress.CatchingUpIsTruthful` | packages/jea-app/src/features/reactor-progress.ts:249-291 | `catching_up` is displayed exactly when automation is not paused and the snapshot qualifies |
| `ReactorProgress.StateIsDisplayed` | packages/jea-app/src/features/reactor-progress.ts:269-291 | every other state is displayed exactly when the snapshot names it, or when it falls back to it: budget, another stop, ready work, or none of these |
| `ReactorProgress.PausedIsDisplayed` | packages/jea-app/src/features/reactor-progress.ts:273 | `paused` is displayed exactly when automation is paused |
| `ReactorProgress.AcceptedExactly` | packages/jea-app/src/features/reactor-progress.ts:133-142 | a snapshot is accepted exactly when it names schema and generation and reports a known freshness and whether the worker is alive |
| `ReactorProgress.LaneIsKept` | packages/jea-app/src/features/reactor-progress.ts:107-126 | a lane is kept exactly when it has its five counts; the open total is their sum but for what was handled |
| `ReactorProgress.RequiredFromRaw` | packages/jea-app/src/features/reactor-progress.ts:164-185 | each field that is always there, from the raw value |
| `ReactorProgress.OptionalFromRaw` | packages/jea-app/src/features/reactor-progress.ts:215-238 | each field that is there only sometimes, and when |
| `ReactorProgress.ActivityFromRaw` | packages/jea-app/src/features/reactor-progress.ts:185-214 | task, claim and batch, and the lanes they name |
| `Notifications.CooldownHolds` | apps/desktop/src/main/notification-service.ts:95-107 | with a clock that does not run back, an item that was neither forgotten nor changed is noted again only after the cooldown |
| `Notifications.MemoryIsBounded` | apps/desktop/src/main/notification-service.ts:91-107 | after any snapshots, whatever the clock did, at most 256 items are remembered |
| `Notifications.NotedExactly` | apps/desktop/src/main/notification-service.ts:96-103 | an offered item is noted if and only if it is new, was forgotten, has changed, or was last noted at least the cooldown ago |
| `Notifications.RunRemembers` | apps/desktop/src/main/notification-service.ts:91-107 | the memory is the last word of the history on every item, in every run |
| `Notifications.PrunedExactly` | apps/desktop/src/main/notification-service.ts:90-93 | a snapshot forgets exactly the items under its subject that it no longer has |
| `Notifications.OwnItems` | apps/desktop/src/main/notification-service.ts:91-93 | for subjects without a colon these are the subject's own items |
| `Notifications.OldestGoes` | apps/desktop/src/main/notification-service.ts:103-107 | in a full memory a new item takes the place of the oldest |
| `Notifications.HandledKeeps` | apps/desktop/src/main/notification-service.ts:65-127 | one snapshot keeps memory, insertion order and history in agreement |
| `Notifications.NotificationService.Prune` | apps/desktop/src/main/notification-service.ts:90-93 | items that left the snapshot are forgotten |
| `Notifications.NotificationService.Offer` | apps/desktop/src/main/notification-service.ts:96-108 | one candidate: cooldown, memory, eviction, and whether it is shown |
| `Notifications.NotificationService.HandleSnapshot` | apps/desktop/src/main/notification-service.ts:65-127 | a whole snapshot, and the notifications that are shown for it |

## Left out

- Everything behind imports from `src/**/*.mjs` (worker state, lease files, redaction, channel adapters, execution roots): not part of this model; its results come in as parameters.
- HTTP, file system, processes, Electron, timers and clocks: steps of the environment, or parameters.
- Event stream: UTF-8 decoding, the 200 ms retry timer, the 401 branch, connection-state callbacks and the set of listeners; a listener neither throws nor calls back. A server restart, after which numbers begin again, is outside the claims.
- Event stream: `JSON.parse`, `JSON.stringify`, `Number` and `String` are parameters, with the round trips of `WebClient.Faithful` assumed where both ends meet; a resume position that is a fraction is not modelled.
- Event stream: the redaction that the host applies before writing a frame; a frame is any id and text without line breaks.
- Daemon supervisor: `repair`, the disk state of workers, the signalling loop that ends a child, diagnostic files and published events; the health of a worker and the end of a child are inputs.
- DaemonSupervisor.Supervisor.StopOwned: models one entry at a time; the loop of `stop` over several entries, and the cleanup calls of a shutdown, are sequences of its steps.
- Process registry: the shutdown timeout only decides when `ShutdownFinished` comes.
- Projection watcher: how snapshots become views, and which of their parts stripping and redaction take out of an event: a view is a pair of what events show and what they do not. SHA-1 is any function, injective where a lemma says so.
- Projection watcher: `ops.refresh` in `watch`, `status`, `refresh` and the rebuild subscription, which only call what is modelled. Publications of a new watch made inside a fetch of an old one are the same as publications right after it.
- Projection watcher: an event bus or a redaction that throws in the middle of a batch.
- Projection watcher: two sessions with the same id in one snapshot are one session with the later fingerprint, as in the source's map.
- Agent sessions: a close while the session is starting, directory and framework checks, `setConfigOption`, the views, the observer's tool events. A process exit during the start does not count as a failure, since the source makes the session ready when its start returns.
- Agent sessions: the text of a prompt; a blank one is refused before anything changes.
- Permission broker: how the advisory decision is made and what the published view of a request holds; whether a request is reviewable is an input. Request ids are taken to be unique.
- Text stream: the pattern of the protected tail is a parameter, as is what counts as white space.
- Inspector: list, observability and error of the snapshot, and how the default cycle is picked. Calls of the client return promises; they do not throw at once.
- Inspector: trimming a subject is a parameter that is assumed idempotent.
- Report index: parsing and file signatures; what a directory holds is a function of its path and signature, so a directory that changes between signature and reading is not covered. The limit of 200 records is the store's.
- Sanitizers: round details, observability and diagnostics, which repeat the patterns of cycle lists and details. Keys of a record that are array indices come first in JavaScript whatever their position; the model keeps positions.
- Reactor progress: all numbers read the same in `String(value)`, which matters only for lanes, and no numeral names one. The action and lane tables are left out.
- Projection watcher: the reason that events carry; `NoticesCollapse` says which one a follow-up has.
- Notifications: reading and writing settings, texts, click handlers, and a notification that throws, which counts as shown. Subjects with a colon share keys, as in the supervisor.
