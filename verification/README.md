# Verified models of BBP's protocols and algorithms

BBP runs blockchain networks on one Linux host.  This project models the parts of it that
are protocols or algorithms rather than plumbing, and proves what they promise for every
input, every interleaving and every crash point.  `dafny verify dfyconfig.toml` checks
all of it.

- **Operation service** (`operation_*.dfy`).  The service behind one mutex: operations, session
  accounts, a bounded coalescing notification queue with retry, eviction, pinned waiters and a
  three-phase shutdown.  `OperationState` has one function per critical section, with the
  notification handler outside the lock; `OperationHistory` proves one invariant over every
  interleaving and draws the conclusions; `OperationShutdown` says when a shutdown completes;
  `OperationService` is the same service with its fields updated in place.
- **Cgroup scopes** (`cgroup_*.dfy`).  A write-ahead protocol over the cgroup hierarchy and a state
  file.  `CgroupWorld` states the kernel's rules ("Top-down Constraint" and "No Internal Process
  Constraint" of the Linux cgroup v2 documentation) and the loader's checks; `CgroupScope`,
  `CgroupStart` and `CgroupCrash` prove what every single write keeps; `CgroupHost` runs the
  commands under an arbitrary schedule of failing writes and deaths, and `CgroupShift` says how far
  the hierarchy they restore may then differ from the initial one; `CgroupLimits` shows where the
  protocol stops keeping its promise.
- **Evidence paging** (`evidence_*.dfy`, `civil_date.dfy`).  A round-robin scan of growing files cut
  into pages that resume in the middle of a record, what is out after any of them
  (`EvidenceDelivery`), the cursor text, and the Gregorian day count (timestamps of section 5.6 of
  RFC 3339).
- **Peer topologies** (`topology_*.dfy`).  Nine kinds of graphs as edge sets, the loops that build
  them, remapping after nodes are removed and when that keeps exactly the kept edges
  (`TopologyExact`), unbiased draws, shuffling and preferential attachment.
- **Shell printer** (`shell_words.dfy`).  Bounded-width command lines against a token scanner after
  sections 2.2.1 to 2.2.3 of the POSIX.1-2017 Shell Command Language, with the reserved and assignment
  words of sections 2.4 and 2.10.2.
- **Chain view** (`chain_*.dfy`).  A bounded most-recently-used cache that follows a chain through
  reorganisations.
- **Pending commands** (`pending_commands.dfy`), **digest header** (`digest_header.dfy`; section
  3.2.6 of RFC 7230, section 3.4 of RFC 7616) and **log tail** (`log_tail.dfy`).

Assumptions.  Locked sections are atomic.  Where a removal wakes to find its session erased, the
model's removal does nothing (the code reads the record; `OperationHistory.RemovalFindsItsSession`
says exactly when).  A run of the service stops at the first exhausted sequence counter, where the
code catches the error and goes on: nothing is claimed after it.  Nothing else edits the cgroups
while a scope command holds its lock; processes neither fork nor exit during it; a directory is an
opaque identity and a state write is one step, and so is killing and removing a run's cgroup; tokens
from the random source are fresh.  An evidence file that appears while a page is read counts as
there from the next page on.  The chain of a source is fixed while one chain query reads its rows,
and equal block hashes mean equal histories.  Random streams are arbitrary sequences of 64-bit words
in which every bound keeps being met.  MD5 is an arbitrary function with control-free results.

Where a promise turned out not to hold everywhere, the exact condition is proved.

- Operation accounting holds until the 64-bit sequence counter is exhausted, and then fails
  (`OperationLimits.FinishBalances`); `OperationLimits.ExhaustedCounterStrands` gives the run.
- A removal's session is still there when it wakes unless another removal of it finished or a shutdown
  completed (`OperationHistory.RemovalFindsItsSession`); `OperationLimits.ShutdownErasesWaitedSession`
  gives the run.
- A joined shutdown that a request began completes exactly if a request is the last one to leave; once the
  last request has left before some other waiter, nothing completes it
  (`OperationShutdown.CompletesWhileARequestStays`); `OperationShutdown.DrainedButStuck` gives the run.
- The stored count of active subscriptions exceeds their number by exactly the ones switched off without a
  cancellation, as a removal or a shutdown does (`OperationSubscriptions.ExcessIsClosed`); it never underflows
  (`OperationSubscriptions.CountNeverUnderflows`); the published statistics count anew.
- The first scope state loads exactly when no resource-named cgroup is already under the simulator or
  no scope controller is expected (`CgroupWorld.FirstStateLoads`, `CgroupLimits.FirstStateRefused`).
  Without a controller such cgroups are adopted as runs and not restored
  (`CgroupLimits.AdoptedRunsBelong`, `CgroupLimits.AdoptedScopeStarves`).
- A start is refused by the kernel exactly when a pre-existing simulator has processes and lacks a
  managed controller (`CgroupStart.EnableSimulatorStep`, `CgroupLimits.StartRefused`).
- A run directory whose mkdir was not recorded goes with the removal of that run while the state still
  has it pending, and then nothing is left (`CgroupLimits.UnrecordedRunIsReclaimed`).  The next
  preparation clears the mark; from then on removals of it are refused unless a later scope adopts it,
  restoration leaves it, and is refused when the scope made the simulator it lies in
  (`CgroupHost.Host.PrepareRun`, `CgroupHost.Host.RemoveRun`, `CgroupLimits.UnrecordedRunIsLeft`);
  `CgroupLimits.UnrecordedRun` and `CgroupLimits.UnrecordedRunHoldsSimulator` give the runs.
- Recovery refuses a recorded pending run that is unbound or whose directory is gone, and later
  preparations with it, until that run is removed (`CgroupHost.Host.Recover`,
  `CgroupLimits.RecoveryRefused`).
- Removing a run that was announced but never made takes a directory of its name that was there
  before, and does so exactly then (`CgroupHost.Host.RemoveRun`, `CgroupLimits.OldDirectoryIsLost`);
  resource names rule it out (`CgroupHost.Host.ForeignIsNoResource`).
- Timestamps before 1970 read alike, so do a leap second and the second before it, and so do a day its
  month does not have and the real date it runs into; all others keep their order
  (`CivilDate.TimestampsOrder`, `CivilDate.MeantCounts`, `CivilDate.TimestampsCollapse`).
- Removing nodes keeps exactly the other edges of a star, a ring and a region graph only under conditions
  on what is removed (`TopologyExact.RemapExactly`).
- A printed command does not run its executable exactly when that is a bare assignment or reserved
  word (`ShellWords.NamesExecutable`, `ShellWords.PathsAreNotMistaken`); broken over lines, also when
  its front is an assignment in bare pieces (`ShellWords.LinesNameExecutable`,
  `ShellWords.BreakingMistakes`).

## Model

| member | source | states |
|---|---|---|
| `OperationHistory.Reachable` | src/mcp_operation_service.cpp:931-1112 | in every interleaving of the critical sections, from the empty service, the whole invariant holds (accounts, queue, lifecycle, pins) until the 64-bit sequence counter is used up |
| `OperationHistory.CountsAreExact` | src/mcp_operation_service.cpp:962-993 | in every reachable state a session's count and the total equal the number of its and of all unfinished records, the total is the sum over the sessions, and an unfinished operation's session is still there |
| `OperationHistory.EndsAreComplete` | src/mcp_operation_service.cpp:995-1102 | in every reachable state progress stays within its total; success has full progress, a result and no error; any other end has an error and no result |
| `OperationHistory.RemovalFindsItsSession` | src/mcp_operation_service.cpp:1373-1396 | RemoveSession keeps a reference across its wait: unless another removal of the session finishes meanwhile, the record is still there if and only if no shutdown has completed |
| `OperationHistory.OnlyFault` | src/mcp_operation_service.cpp:830-925 | the errors "lost its queue slot", "exceeded its bound", unknown session, accounting underflow and lost pin are unreachable; only counter exhaustion remains |
| `OperationHistory.DeliveredOrQueued` | src/mcp_operation_service.cpp:776-925 | with a handler, an operation that has left its submitted state either has its latest sequence delivered and no pending notification, or exactly one pending notification carrying its latest snapshot |
| `OperationHistory.DeliveriesIncrease` | src/mcp_operation_service.cpp:830-925 | successful deliveries per operation strictly increase in every run |
| `OperationHistory.EvictedWasDelivered` | src/mcp_operation_service.cpp:711-733 | a record disappears only when it is terminal, unwatched, and its terminal state was delivered |
| `OperationHistory.OnlyEvictionRemoves` | src/mcp_operation_service.cpp:711-733 | no step other than an eviction of an evictable record removes or replaces a record |
| `OperationHistory.RunLater` | src/mcp_operation_service.cpp:931-1112 | over whole runs terminal snapshots never change, progress never regresses, and identifiers are reused only by later admissions |
| `OperationHistory.StepMoves` | src/mcp_operation_service.cpp:931-1112 | every step but a submission moves every snapshot forward |
| `OperationHistory.SubmitMoves` | src/mcp_operation_service.cpp:1466-1546 | a submission moves kept snapshots forward and keeps every record that may not be evicted |
| `OperationHistory.RunKeepsInv` | src/mcp_operation_service.cpp:931-1112 | runs of any length keep the invariant or end in counter exhaustion |
| `OperationHistory.StepKeepsInv` | src/mcp_operation_service.cpp:931-1112 | each of the twenty-two kinds of step keeps the invariant |
| `OperationHistory.InitialInv` | src/mcp_operation_service.cpp:1291-1314 | the empty service satisfies the invariant |
| `OperationHistory.StartKeepsInv` | src/mcp_operation_service.cpp:995-1024 | the first section of RunOperation keeps the invariant, cancelled before start or not |
| `OperationHistory.ProgressKeepsInv` | src/mcp_operation_service.cpp:931-960 | a progress report keeps the invariant |
| `OperationHistory.FinishKeepsInv` | src/mcp_operation_service.cpp:1077-1096 | the last section of RunOperation keeps the invariant for every outcome |
| `OperationHistory.CancelOneKeepsInv` | src/mcp_operation_service.cpp:1554-1586 | a cancellation keeps the invariant |
| `OperationHistory.ExitKeepsInv` | src/mcp_operation_service.cpp:1143-1161 | a worker's exit keeps the invariant |
| `OperationHistory.RegisterKeepsInv` | src/mcp_operation_service.cpp:1318-1332 | registering a session keeps the invariant |
| `OperationHistory.SubmitKeepsInv` | src/mcp_operation_service.cpp:1466-1546 | a submission with collection, eviction and failed thread start keeps the invariant |
| `OperationHistory.RemoveBeginKeepsInv` | src/mcp_operation_service.cpp:1334-1371 | closing a session and cancelling its operations keeps the invariant, in any map order |
| `OperationHistory.RemoveFinishKeepsInv` | src/mcp_operation_service.cpp:1373-1404 | erasing a session whose work and waiters are gone keeps the invariant |
| `OperationHistory.EnterKeepsInv` | src/mcp_operation_service.cpp:1406-1425 | a session request pins its session and keeps the invariant |
| `OperationHistory.WaitKeepsInv` | src/mcp_operation_service.cpp:1588-1604 | a waiter pins its operation and session and keeps the invariant |
| `OperationHistory.PollKeepsInv` | src/mcp_operation_service.cpp:1708-1739 | a poller pins its subscription and session and keeps the invariant |
| `OperationHistory.LeaveKeepsInv` | src/mcp_operation_service.cpp:1431-1448 | releasing a pin, and the finalization it may trigger, keep the invariant |
| `OperationHistory.SubscribeKeepsInv` | src/mcp_operation_service.cpp:1614-1706 | a subscription, with the retirement of the oldest inactive, unwatched one and its queued note, keeps the invariant |
| `OperationHistory.UnsubscribeKeepsInv` | src/mcp_operation_service.cpp:1741-1762 | cancelling a subscription keeps the invariant |
| `OperationHistory.PublishKeepsInv` | src/mcp_operation_service.cpp:1787-1840 | queueing a subscription notification keeps the invariant |
| `OperationHistory.DrainBeginKeepsInv` | src/mcp_operation_service.cpp:830-838 | becoming the one delivering thread keeps the invariant |
| `OperationHistory.DrainTakeKeepsInv` | src/mcp_operation_service.cpp:839-861 | taking the front notification keeps the invariant while the lock is released |
| `OperationHistory.DrainSettleKeepsInv` | src/mcp_operation_service.cpp:862-925 | settling a delivered or failed notification keeps the invariant |
| `OperationHistory.ShutdownBeginKeepsInv` | src/mcp_operation_service.cpp:1200-1264 | the cancelling first phase of a shutdown keeps the invariant |
| `OperationHistory.ShutdownJoinedKeepsInv` | src/mcp_operation_service.cpp:1265-1276 | the joined phase keeps the invariant |
| `OperationHistory.ShutdownFinalizeKeepsInv` | src/mcp_operation_service.cpp:1104-1112 | the final phase keeps the invariant |
| `OperationAccounting.CompletionAccounting` | src/mcp_operation_service.cpp:962-993 | completing an operation keeps all counts equal to the records if and only if a sequence number is left |
| `OperationAccounting.CompletionKeepsAccounting` | src/mcp_operation_service.cpp:962-993 | while sequence numbers last, completion takes exactly one operation off its session and the global count |
| `OperationAccounting.GlobalIsSum` | src/mcp_operation_service.cpp:978-992 | the global active count is the sum of the sessions' counts |
| `OperationAccounting.RemoveFinishKeepsAccounting` | src/mcp_operation_service.cpp:1373-1404 | a session leaves with an active count of zero |
| `OperationAccounting.FinalizeKeepsAccounting` | src/mcp_operation_service.cpp:1104-1112 | finalization leaves no active operation uncounted |
| `OperationQueue.QueueHasRoom` | src/mcp_operation_service.cpp:806-828 | the queue bound is never exceeded: every queued key is a retained operation or subscription |
| `OperationQueue.RequeueKeepsQueue` | src/mcp_operation_service.cpp:776-828 | queueing a newer notification coalesces it and keeps one slot per key |
| `OperationQueue.CompletionKeepsQueue` | src/mcp_operation_service.cpp:962-993 | a terminal snapshot is owed exactly one notification |
| `OperationQueue.EvictionKeepsQueue` | src/mcp_operation_service.cpp:711-733 | evicting a delivered operation leaves no queued notification behind |
| `OperationQueue.SlotKept` | src/mcp_operation_service.cpp:876-885 | an operation notification in flight still has its slot, holding the latest snapshot |
| `OperationQueue.FailedDeliveryKeepsQueue` | src/mcp_operation_service.cpp:886-888 | a failed delivery is retried later and loses nothing |
| `OperationQueue.SuccessfulDeliveryKeepsQueue` | src/mcp_operation_service.cpp:889-909 | a successful delivery is acknowledged, and only a newer snapshot stays queued |
| `OperationQueue.RemoveFinishKeepsQueue` | src/mcp_operation_service.cpp:1383-1397 | a removed session takes its subscription notifications with it and keeps the owed ones |
| `OperationLifecycle.JoinedMeansEnded` | src/mcp_operation_service.cpp:1265-1289 | once the workers are joined every operation is terminal |
| `OperationLifecycle.StoppingKeepsLifecycle` | src/mcp_operation_service.cpp:1200-1264 | a shutdown leaves each thread handle with exactly one joiner |
| `OperationPins.PinsNeverLost` | src/mcp_operation_service.cpp:1588-1612 | a waiting caller's operation, subscription and session are still there when it returns |
| `OperationPins.EvictionKeepsPins` | src/mcp_operation_service.cpp:711-733 | eviction never takes a watched operation |
| `OperationPins.RemovalKeepsPins` | src/mcp_operation_service.cpp:1373-1404 | session removal never takes a watched session |
| `OperationPins.FinalizeKeepsPins` | src/mcp_operation_service.cpp:1104-1112 | shutdown finalizes only when nobody waits |
| `OperationLimits.FinishBalances` | src/mcp_operation_service.cpp:1077-1096 | in every reachable state a finishing operation balances the books if and only if the counter is not exhausted |
| `OperationLimits.ExhaustedCounterStrands` | src/mcp_operation_service.cpp:661-666 | in every service that admits an operation there is a run whose state satisfies the invariant and in which an operation then ends with the counter used up, staying on both active counts |
| `OperationLimits.ShutdownErasesWaitedSession` | src/mcp_operation_service.cpp:1373-1396 | the concrete run in which a shutdown completes while a removal waits, so that the record it refers to is erased |
| `OperationLimits.KeysStayApart` | src/mcp_operation_service.cpp:735-760 | notification keys of NUL-free sessions are equal only for the same method, session and identifier |
| `OperationShutdown.CompletesWhileARequestStays` | src/mcp_operation_service.cpp:1431-1448 | a joined shutdown that a request began can still complete, over some continuation, if and only if a request is still inside |
| `OperationShutdown.LeaveCompletes` | src/mcp_operation_service.cpp:1431-1448 | a leaving caller completes such a shutdown if and only if it is a request and the last one inside |
| `OperationShutdown.AbandonedForGood` | src/mcp_operation_service.cpp:529-533 | once no request is inside, no continuation of any length completes it: waiters and pollers leave without finalizing |
| `OperationShutdown.OwnerCompletes` | src/mcp_operation_service.cpp:1265-1289 | a joined shutdown of an outside thread or a worker completes at its own section if and only if nobody is inside and that worker has ended |
| `OperationShutdown.DrainedButStuck` | src/mcp_operation_service.cpp:1431-1448 | the concrete run: a request and a poller, the request begins the shutdown and leaves first; everything is joined and drained and nothing completes the shutdown any more |
| `OperationSubscriptions.ExcessIsClosed` | src/mcp_operation_service.cpp:1260-1268 | each step makes the stored count exceed the active subscriptions by exactly as many more as it switches off without cancelling them |
| `OperationSubscriptions.CountNeverUnderflows` | src/mcp_operation_service.cpp:1741-1782 | over every run the stored count of active subscriptions is at least their number, so the two accounting-underflow errors are unreachable |
| `OperationService.Service.constructor` | src/mcp_operation_service.cpp:1310-1314 | a new service is the empty state |
| `OperationService.Service.FindPending` | src/mcp_operation_service.cpp:776-805 | finds the first queued note of a key |
| `OperationService.Service.Enqueue` | src/mcp_operation_service.cpp:776-828 | queues one note as the specification does, or reports the bound |
| `OperationService.Service.NotifyOperation` | src/mcp_operation_service.cpp:927-929 | queues an operation's notification or acknowledges it without a handler |
| `OperationService.Service.Renumber` | src/mcp_operation_service.cpp:661-666 | stores a changed record under a fresh sequence number and queues it |
| `OperationService.Service.Conclude` | src/mcp_operation_service.cpp:962-993 | completes a record and both counts |
| `OperationService.Service.OldestEvictable` | src/mcp_operation_service.cpp:711-729 | finds the evictable record admitted first, or that there is none |
| `OperationService.Service.MakeRoom` | src/mcp_operation_service.cpp:711-733 | collects finished workers and evicts when the records are full |
| `OperationService.Service.CancelEach` | src/mcp_operation_service.cpp:1346-1361 | cancels the given operations in order, stopping at exhaustion |
| `OperationService.Service.RegisterSession` | src/mcp_operation_service.cpp:1318-1332 | registers a session exactly when serving, new and within the bound |
| `OperationService.Service.SubmitOperation` | src/mcp_operation_service.cpp:1466-1546 | the whole submission section; the invariant is kept |
| `OperationService.Service.StartOperation` | src/mcp_operation_service.cpp:995-1024 | the first section of a run; the invariant is kept |
| `OperationService.Service.ReportProgress` | src/mcp_operation_service.cpp:931-960 | one progress report; the invariant is kept |
| `OperationService.Service.FinishOperation` | src/mcp_operation_service.cpp:1077-1096 | the last section of a run; the invariant is kept |
| `OperationService.Service.WorkerExited` | src/mcp_operation_service.cpp:1143-1161 | the exit section; the invariant is kept |
| `OperationService.Service.CancelOperation` | src/mcp_operation_service.cpp:1554-1586 | one cancellation; the invariant is kept |
| `OperationService.Service.BeginRemoval` | src/mcp_operation_service.cpp:1334-1371 | the first section of RemoveSession; the invariant is kept |
| `OperationService.Service.FinishRemoval` | src/mcp_operation_service.cpp:1373-1404 | the second section of RemoveSession; the invariant is kept |
| `OperationService.Service.EnterRequest` | src/mcp_operation_service.cpp:1406-1425 | a request enters and pins its session |
| `OperationService.Service.EnterWait` | src/mcp_operation_service.cpp:1588-1604 | a waiter enters and pins its operation |
| `OperationService.Service.LeaveWait` | src/mcp_operation_service.cpp:1431-1448 | a caller leaves; exactly a request that is the last one inside finalizes a joined shutdown, and only one that a request began |
| `OperationService.Service.OldestRetirable` | src/mcp_operation_service.cpp:1665-1676 | finds the inactive, unwatched subscription created first, or that there is none |
| `OperationService.Service.CreateSubscription` | src/mcp_operation_service.cpp:1650-1706 | created exactly when serving, open and with room or a retirable one, which goes with its note |
| `OperationService.Service.EnterPoll` | src/mcp_operation_service.cpp:1708-1739 | a poller enters and pins its subscription |
| `OperationService.Service.CancelSubscription` | src/mcp_operation_service.cpp:1741-1762 | the subscription becomes inactive; the invariant is kept |
| `OperationService.Service.PublishItem` | src/mcp_operation_service.cpp:1787-1840 | one subscription notification is queued |
| `OperationService.Service.BeginDrain` | src/mcp_operation_service.cpp:830-838 | claims delivery |
| `OperationService.Service.TakeNotification` | src/mcp_operation_service.cpp:839-861 | takes the front notification |
| `OperationService.Service.SettleNotification` | src/mcp_operation_service.cpp:862-925 | settles the notification in flight |
| `OperationService.Service.BeginShutdown` | src/mcp_operation_service.cpp:1200-1264 | the first phase of a shutdown |
| `OperationService.Service.WorkersJoined` | src/mcp_operation_service.cpp:1273-1278 | the joins returned: the shutdown may be finalized |
| `OperationService.Service.CompleteShutdown` | src/mcp_operation_service.cpp:1279-1289 | finalizes exactly if joined and drained, for an outside owner at once, for a worker after its exit, for a request never; then every operation has ended and no session is left |
| `CgroupWorld.FirstStateLoads` | src/cgroup.cpp:2735-2780 | the first published scope state passes the loader if and only if no resource-named cgroup exists yet or no scope controller is expected |
| `CgroupScope.MidBinds` | src/cgroup.cpp:2604-2707 | whatever a cut command leaves with its directories recorded, the next command loads and binds it |
| `CgroupScope.HeadlessIsRefused` | src/cgroup.cpp:2604-2707 | a world with a simulator or controller that no state recorded loads, but is never bound |
| `CgroupScope.RestoreCrashPoints` | src/cgroup.cpp:2868-3002 | from any recoverable world the kernel refuses no write of a restoration, a crash after any write leaves a recoverable world, and the finished restoration is exactly the original hierarchy |
| `CgroupScope.RestoreIsLawful` | src/cgroup.cpp:2912-2968 | at every point of a restoration the state loads, the simulator's controllers are among the root's, and the root holds processes only while the added controllers are off |
| `CgroupScope.DisableSimulatorStep` | src/cgroup.cpp:2912-2916 | switching the added simulator controllers off is allowed and leaves exactly the earlier ones |
| `CgroupScope.DisableRootStep` | src/cgroup.cpp:2917-2922 | switching the added root controllers off is allowed and leaves exactly the earlier ones |
| `CgroupScope.MoveBackStep` | src/cgroup.cpp:2923-2936 | each process moved home keeps the world recoverable and the processes complete |
| `CgroupScope.CheckpointStep` | src/cgroup.cpp:2960-2967 | the restoration-ready checkpoint is truthful when written |
| `CgroupScope.CommitStep` | src/cgroup.cpp:2998-3001 | unlinking the state file happens exactly at the original hierarchy |
| `CgroupCrash.StartCrashPoints` | src/cgroup.cpp:2782-2823 | a start cut after any write is recoverable, except right after an unrecorded mkdir, keeps both cgroup v2 constraints and a loadable state, and completes with all managed controllers enabled |
| `CgroupCrash.NestedCrashes` | src/cgroup.cpp:2868-3002 | restorations that die again and again leave a recoverable world |
| `CgroupCrash.RecoveredAtLast` | src/cgroup.cpp:2868-3002 | the restoration that finally completes returns to exactly the original hierarchy |
| `CgroupCrash.UnrecordedIsRefused` | src/cgroup.cpp:2625-2654 | a simulator or controller without a recorded identity is never adopted |
| `CgroupCrash.OrphanedRunStays` | src/cgroup.cpp:2868-3002 | restoration alone never takes a run directory that was made but not recorded: it does not return to a hierarchy without it |
| `CgroupStart.PublishStep` | src/cgroup.cpp:3113-3122 | the published state describes the untouched hierarchy |
| `CgroupStart.MakeSimulatorStep` | src/cgroup.cpp:2785-2798 | recording the new simulator's identity makes the world recoverable |
| `CgroupStart.MakeControllerStep` | src/cgroup.cpp:2799-2812 | recording the new controller's identity makes the world recoverable |
| `CgroupStart.MoveOutStep` | src/cgroup.cpp:2813-2814 | each process moved aside keeps the world recoverable |
| `CgroupStart.EnableRootStep` | src/cgroup.cpp:2815-2816 | with the root empty, enabling its controllers is allowed |
| `CgroupStart.EnableSimulatorStep` | src/cgroup.cpp:2818-2821 | the simulator's controllers are refused if and only if it has processes of its own and lacks a managed controller |
| `CgroupStart.PendStep` | src/cgroup.cpp:3128-3131 | announcing a run keeps the state loadable and the world recoverable |
| `CgroupStart.MakeRunStep` | src/cgroup.cpp:3137-3149 | the run's mkdir is refused if and only if the name exists; recorded, the world is recoverable |
| `CgroupStart.ActivateStep` | src/cgroup.cpp:3153-3156 | activating a created run keeps the world recoverable |
| `CgroupStart.DropRunStep` | src/cgroup.cpp:3303-3305 | removing a run's cgroup keeps the world recoverable |
| `CgroupStart.ForgetStep` | src/cgroup.cpp:3306-3312 | forgetting a run without a directory keeps the state loadable and the world recoverable |
| `CgroupStart.ForeignStep` | src/cgroup.cpp:3292-3305 | removing a run that was announced but never made, beside an older directory of its name, takes that directory: the world then belongs to the original hierarchy without it, and no longer to the original one |
| `CgroupStart.OrphanStep` | src/cgroup.cpp:3137-3149 | a mkdir that is not recorded leaves an orphaned world: the announced run, its directory, and otherwise the recoverable world before it |
| `CgroupStart.OrphanBinds` | src/cgroup.cpp:2604-2707 | an orphaned world loads and binds like any other, and the state knows the run as its pending one only |
| `CgroupStart.ReclaimStep` | src/cgroup.cpp:3292-3316 | removing that run by name takes exactly the unrecorded directory and is back in the recoverable world |
| `CgroupStart.StrandStep` | src/cgroup.cpp:3014-3049 | clearing the pending mark instead makes the directory part of the hierarchy to return to |
| `CgroupStart.OrphanDrop` | src/cgroup.cpp:3303-3305 | removing another run leaves an orphaned world orphaned |
| `CgroupStart.AdoptStep` | src/cgroup.cpp:2735-2780 | resource-named cgroups become the new scope's runs, which then belongs to the hierarchy without them |
| `CgroupStart.BelongingKeeps` | src/cgroup.cpp:2604-3002 | whatever a command leaves still has every directory of the hierarchy it belongs to |
| `CgroupStart.PopulateStep` | src/cgroup.cpp:3150-3156 | processes entering or leaving a run between commands keep the world recoverable |
| `CgroupLimits.AnnouncedRunTakesDirectory` | src/cgroup.cpp:3128-3137 | a preparation that dies between announcing the run and its mkdir leads there, and the restoration that follows ends at the original hierarchy without the directory |
| `CgroupLimits.OldDirectoryIsLost` | src/cgroup.cpp:3292-3312 | the concrete hierarchy and run name for it, from a started scope |
| `CgroupLimits.UnrecordedRunIsReclaimed` | src/cgroup.cpp:3137-3149 | a preparation that dies between a run's mkdir and its record is undone exactly: removal by name, then restoration, end at the original hierarchy |
| `CgroupLimits.UnrecordedRunIsLeft` | src/cgroup.cpp:3014-3049 | if the next preparation clears the pending mark first, restoration ends with the directory still there when the simulator was there before, and is refused when the scope made the simulator |
| `CgroupLimits.HeldSimulatorStays` | src/cgroup.cpp:2942-2957 | no restoration removes a simulator of its own that holds another cgroup |
| `CgroupLimits.UnrecordedRun` | src/cgroup.cpp:3137-3149 | the concrete hierarchy and run: after dying right behind the mkdir, removing the run and restoring ends at the original hierarchy, while clearing the mark and restoring ends with the directory left behind |
| `CgroupLimits.UnrecordedRunHoldsSimulator` | src/cgroup.cpp:2942-2957 | the concrete hierarchy in which the directory left behind lies in the scope's own simulator, so that restoration is refused |
| `CgroupLimits.DeathsRecoveryRefuses` | src/cgroup.cpp:3014-3041 | the deaths after which recovery refuses the pending run: an unbound recorded one, and a bound one whose directory is gone |
| `CgroupLimits.AdoptedRunsBelong` | src/cgroup.cpp:2735-2780 | a scope without a controller that adopts resource-named cgroups as runs is recoverable towards the hierarchy without them, so restoring never brings them back |
| `CgroupLimits.AdoptedScopeStarves` | src/cgroup.cpp:2735-2823 | dying before the simulator has its controllers leaves an adopting scope in use: a later run's controllers can be enabled if and only if the simulator had them all before |
| `CgroupLimits.FirstStateRefused` | src/cgroup.cpp:2735-2780 | the concrete hierarchy whose first scope state the loader refuses |
| `CgroupLimits.StartRefused` | src/cgroup.cpp:2818-2821 | the concrete hierarchy in which the kernel refuses a start |
| `CgroupLimits.RecoveryRefused` | src/cgroup.cpp:3014-3041 | two recoverable worlds in which recovery refuses the pending run: an unbound one that was recorded, and a bound one whose directory is gone |
| `CgroupHost.Host.constructor` | src/cgroup.cpp:3051-3111 | a host starts at the hierarchy every later promise refers to |
| `CgroupHost.Host.Perform` | src/cgroup.cpp:1780-1806 | one write: done, failed before or after taking effect (a mkdir included), refused by the kernel, or the process died |
| `CgroupHost.Host.MoveProcesses` | src/cgroup.cpp:1828-1875 | moves every process or stops; without faults one pass suffices and the retry limit is never reached |
| `CgroupHost.Host.Quiesce` | src/cgroup.cpp:2912-2967 | controllers off, processes home, checkpoint; recoverable wherever it stops |
| `CgroupHost.Host.Dismantle` | src/cgroup.cpp:2969-3002 | removes what the scope made; done means the original hierarchy |
| `CgroupHost.Host.Restore` | src/cgroup.cpp:2868-3002 | refused exactly while runs remain, for a hierarchy that does not match the state, or while an own simulator holds something; recoverable wherever it stops; without faults it otherwise finishes at the hierarchy to restore |
| `CgroupHost.Host.Save` | src/cgroup.cpp:514-551 | publishing a state that describes the hierarchy makes it recoverable |
| `CgroupHost.Host.Start` | src/cgroup.cpp:2782-2823 | starts a published scope; without faults it succeeds if and only if the original simulator can take the controllers |
| `CgroupHost.Host.MakeRun` | src/cgroup.cpp:3137-3149 | makes and records a run's cgroup |
| `CgroupHost.Host.EnableRun` | src/cgroup.cpp:3150-3152 | enables every managed controller in the run |
| `CgroupHost.Host.AddRun` | src/cgroup.cpp:3124-3156 | adds a run; without faults it succeeds if and only if the run is new, its name unused and every managed controller at hand |
| `CgroupHost.Host.Rollback` | src/cgroup.cpp:3157-3190 | undoes a failed preparation; takes no directory but the one it made; without faults the world is the one to restore if no run is left and nothing holds an own simulator, and else the scope without the run |
| `CgroupHost.Host.Recover` | src/cgroup.cpp:3014-3049 | clears an interrupted preparation: a recorded directory goes, an unrecorded one becomes part of the hierarchy to return to; without faults it is refused, and changes nothing, if and only if the recorded run is unbound or its directory gone |
| `CgroupHost.Host.Purge` | src/cgroup.cpp:3088-3104 | drops exactly the runs whose directory is gone |
| `CgroupHost.Host.Begin` | src/cgroup.cpp:3112-3123 | publishes and starts a new scope, adopting resource-named cgroups as its runs; without faults it succeeds exactly when the run's name is none of theirs and the simulator can take the controllers |
| `CgroupHost.Host.OpenScope` | src/cgroup.cpp:3084-3111 | reuses a scope with live runs and restores one without, or fails where an own simulator holds something; nothing that outlives the scope is taken; without a pending run a reused scope is untouched |
| `CgroupHost.Host.PrepareRun` | src/cgroup.cpp:3051-3190 | from every world earlier commands and deaths can leave, for every schedule of faults: what is left belongs to the hierarchy to restore, no directory of it is taken, and that hierarchy is the earlier one but for adopted resource names and the stranded directory of an announced run; without faults, pending runs and names to adopt it is the earlier one; without faults it is refused untouched exactly for bad arguments, an unloadable or unbindable scope or a run recovery refuses; beside live runs it succeeds exactly for a free name with the controllers at hand, and then exactly this run is live besides; with none it restores first and succeeds exactly if the simulator can take the controllers and the name is free, and fails if something holds an own simulator |
| `CgroupHost.Host.RemoveRun` | src/cgroup.cpp:3192-3316 | from every world earlier commands and deaths can leave, for every schedule of faults: a directory goes only with a run the state knows, recorded or not, and while other runs remain nothing else changes but its entry; the world no longer belongs to the earlier hierarchy if and only if the run was announced but never made and an older directory of its name is gone, and the hierarchy to restore is then the earlier one without it; without faults it succeeds exactly for a known or absent run unless it is the last one and something holds an own simulator, and the last one ends at the hierarchy to restore |
| `CgroupHost.Host.RemoveDirectory` | src/cgroup.cpp:3303-3305 | kills and removes the run's directory, whoever made it; the world stays recoverable towards the hierarchy it then belongs to, which lacks at most an older directory of the pending run's name |
| `CgroupHost.Host.ForgetRun` | src/cgroup.cpp:3306-3316 | drops a run without a directory from the state and changes nothing else while runs remain; with its last run the scope goes unless something holds an own simulator |
| `CgroupHost.Host.ForeignIsNoResource` | src/cgroup.cpp:3290-3312 | the directory a removal could wrongly take is never one with a resource name where the hierarchy has none |
| `CgroupHost.Host.Disown` | src/cgroup.cpp:3045-3048 | writes a state without the pending run; a directory of it that no state recorded is from then on part of what outlives the scope |
| `CgroupHost.Host.CloseScope` | src/cgroup.cpp:3105-3110 | saves the scope without its vanished runs and restores it, unless something holds an own simulator |
| `CgroupHost.Host.TryRun` | src/cgroup.cpp:3124-3190 | adds the run or undoes the attempt; the hierarchy to restore changes only by the run's own directory, and only when that was made and never recorded; without faults a failure leaves the other runs and every directory as they were |
| `CgroupHost.Host.Populate` | src/cgroup.cpp:3150-3156 | processes come to and leave an active run between commands; no directory and no state changes |
| `CgroupHost.Host.Execute` | src/cgroup.cpp:3051-3316 | any commands in any order under any faults and with processes coming and going: the world always belongs to the hierarchy to restore and has every directory of it; against the initial hierarchy that one has the same root, controllers and processes, lacks only adopted resource names and removed runs that were announced, and has besides only announced runs; a simulator that was there stays the same; without faults and names to adopt it is the initial hierarchy, exactly the runs that were prepared and not removed since are live, and once every run is removed the host is back at the initial hierarchy |
| `CgroupHost.Host.Issue` | src/cgroup.cpp:3051-3316 | one command keeps the hierarchy to restore but for the names it may adopt, strand or lose; without faults it changes the live runs by exactly its own |
| `CgroupHost.Host.Afresh` | src/cgroup.cpp:3112-3190 | a new scope with the run in it, or what was there before; without faults it succeeds exactly if the simulator can take the controllers and the name is free, and without names to adopt a failure is undone exactly |
| `CgroupHost.Host.Beside` | src/cgroup.cpp:3124-3190 | adds a run to a scope with live runs; without faults exactly that run is live besides, or none |
| `CgroupHost.Host.Retract` | src/cgroup.cpp:3157-3190 | a published scope that did not start is undone |
| `CgroupHost.Host.DropRun` | src/cgroup.cpp:3290-3316 | removes a known run: its directory, its entry and with the last one the scope; the hierarchy to restore lacks at most an older directory of the pending run's name |
| `CgroupHost.Host.TakeDirectory` | src/cgroup.cpp:3290-3305 | takes the run's directory when it is there, and refuses one that is not the bound one |
| `CgroupHost.Host.Checkpoint` | src/cgroup.cpp:2937-2963 | the restoration is marked ready unless something holds an own simulator |
| `CgroupHost.Host.LeaveScope` | src/cgroup.cpp:3255-3259 | without any run left the scope is restored; otherwise nothing changes |
| `CgroupHost.Host.AtOrigin` | src/cgroup.cpp:2998-3001 | once the state file is gone the world is the hierarchy to restore, which `Execute` compares with the initial one |
| `CgroupHost.OngoingIsLeft` | src/cgroup.cpp:3051-3316 | whatever succeeded, the live runs are among those prepared and not removed since |
| `CgroupShift.BareShifts` | src/cgroup.cpp:2735-2780 | adoption changes the hierarchy to restore only by taking resource names out of it |
| `CgroupShift.StrandedShifts` | src/cgroup.cpp:3014-3049 | clearing the pending mark changes it only by adding that run's directory |
| `CgroupShift.LostShifts` | src/cgroup.cpp:3292-3305 | losing an older directory to a removal changes nothing else of it |
| `CgroupShift.ShiftsOn` | src/cgroup.cpp:3051-3316 | such changes add up over any number of commands |
| `EvidencePages.QueryPage` | src/mcp_run_evidence.cpp:995-1184 | on well-formed sources at rest a page is the next piece of the unbounded scan; a truncated page is full or hit a scan bound and leaves strictly less work, any other page leaves nothing; on files that grow between any two turns it still adds each record exactly once and in order, a truncated page gets strictly ahead, and after any other page every (record, family) pair that was complete when it began is out; the cursor stays decodable |
| `EvidencePages.ReadAll` | src/mcp_run_evidence.cpp:1037-1184 | for every choice of page limits the pages chained through their cursor texts are exactly the unbounded scan |
| `EvidencePages.Follow` | src/mcp_run_evidence.cpp:1037-1184 | for pages chained through their cursor texts over append-only files that may grow before every single read, what is out is for each source exactly the matching pairs up to its cursor, in order; following ends, and then everything complete at any view asked for is out |
| `EvidenceDelivery.CaughtDelivers` | src/mcp_run_evidence.cpp:1037-1117 | when four turns in a row found nothing, every complete record of the contents the page began with is out, before any later one, and so is every snapshot family |
| `EvidenceDelivery.IdleCatches` | src/mcp_run_evidence.cpp:1074-1117 | a turn that finds nothing in the grown files has passed all that was complete in the earlier ones |
| `EvidenceDelivery.PastLines` | src/mcp_run_evidence.cpp:1105-1147 | the records complete in the earlier contents come first among those read from the later |
| `EvidenceDelivery.DeliveredHas` | src/mcp_run_evidence.cpp:1136-1147 | what is delivered includes every complete record for every family it belongs to |
| `EvidenceDelivery.DeliveredBefore` | src/mcp_run_evidence.cpp:1105-1117 | what is delivered of later contents is delivered of earlier ones |
| `EvidencePages.ExhaustedJournal` | src/mcp_run_evidence.cpp:1037-1117 | when nothing is left, every (record, family) pair of every file and every snapshot family is out |
| `EvidencePages.ExhaustedStream` | src/mcp_run_evidence.cpp:1037-1117 | four idle turns in a row mean the scan has nothing more to emit |
| `EvidencePages.SaneGrows` | src/mcp_run_evidence.cpp:1092-1117 | a cursor stays usable when the files grow |
| `EvidencePages.FileTurn` | src/mcp_run_evidence.cpp:1074-1169 | one turn of a file source: idle, an error, or a whole or partial record |
| `EvidenceQuery.ReadLine` | src/mcp_run_evidence.cpp:156-205 | the chunked reader finds the first newline, and reports a record over the size bound |
| `EvidenceQuery.TakeRecord` | src/mcp_run_evidence.cpp:1132-1162 | takes the families of a record up to the page limit, stopping at the next family of the source |
| `EvidenceQuery.NextFamily` | src/mcp_run_evidence.cpp:526-535 | the first family of the source from an index on, or none |
| `EvidenceQuery.TookStreams` | src/mcp_run_evidence.cpp:1136-1169 | a record taken in parts streams the same items as one taken whole |
| `EvidenceQuery.TookWorks` | src/mcp_run_evidence.cpp:1136-1169 | taking part of a record leaves strictly less work |
| `EvidenceJournal.JournalGrows` | src/mcp_run_evidence.cpp:1105-1117 | appending to the files neither loses nor repeats an emitted item |
| `EvidenceJournal.TookJournals` | src/mcp_run_evidence.cpp:1132-1169 | a record taken whole or in part extends the journal by exactly its items |
| `EvidenceJournal.SnapshotJournals` | src/mcp_run_evidence.cpp:1042-1072 | each snapshot family is emitted once, in order |
| `EvidenceJournal.LinesAscend` | src/mcp_run_evidence.cpp:1136-1147 | the pairs of a file come in strictly ascending order, so none twice |
| `EvidenceJournal.LinesHold` | src/mcp_run_evidence.cpp:1136-1147 | a pair is in the journal if and only if its record is complete and belongs to the family |
| `EvidenceStream.MarkEmits` | src/mcp_run_evidence.cpp:506-516 | marking a snapshot family sets exactly its bit |
| `EvidenceStream.LineEndGrows` | src/mcp_run_evidence.cpp:156-205 | a complete record stays where it is when text is appended |
| `EvidenceCursor.CursorRoundTrip` | src/mcp_run_evidence.cpp:537-647 | every reachable cursor passes all decoder checks for its family list and decodes to itself |
| `EvidenceCursor.EncodeOpaqueCursor` | src/mcp_run_evidence.cpp:537-557 | prefix and eleven hexadecimal fields of 139 characters in all, refused exactly for an offset beyond 56 bits |
| `EvidenceCursor.DecodeOpaqueCursor` | src/mcp_run_evidence.cpp:559-647 | the decoder, with start sequences and every refusal |
| `EvidenceCursor.Hex64` | src/mcp_run_evidence.cpp:447-457 | sixteen hexadecimal digits |
| `EvidenceCursor.HexByte` | src/mcp_run_evidence.cpp:459-462 | the last two hexadecimal digits |
| `EvidenceCursor.ParseCursorHex` | src/mcp_run_evidence.cpp:464-479 | reads exactly the given digits or refuses |
| `EvidenceCursor.HexRoundTrip` | src/mcp_run_evidence.cpp:447-479 | digits read back to the value they were printed from |
| `EvidenceCursor.FieldsRoundTrip` | src/mcp_run_evidence.cpp:537-647 | fields of fixed widths read back to the values they were printed from |
| `EvidenceCursor.SequenceRoundTrip` | src/mcp_run_evidence.cpp:430-445 | a sequence splits back into family and offset |
| `EvidenceCursor.SequencesDiffer` | src/mcp_run_evidence.cpp:430-445 | sequences of different items differ, and order the items of a family by offset |
| `EvidenceCursor.EncodeSequence` | src/mcp_run_evidence.cpp:430-438 | defined exactly for families below 256 and offsets below 2^56, and fits 64 bits |
| `CivilDate.DaysAreCounted` | src/mcp_run_evidence.cpp:234-245 | the closed form equals counting days year by year and month by month |
| `CivilDate.DaysFollowTheCalendar` | src/mcp_run_evidence.cpp:234-245 | 1970-01-01 is day zero and each next date adds exactly one, across months, leap years and eras |
| `CivilDate.DaysOrder` | src/mcp_run_evidence.cpp:234-245 | day numbers order like dates, in both directions |
| `CivilDate.MillisecondsRead` | src/mcp_run_evidence.cpp:247-290 | every accepted timestamp is read as the milliseconds of the real date it stands for, or as zero before 1970 |
| `CivilDate.TimestampsOrder` | src/mcp_run_evidence.cpp:247-290 | of two accepted timestamps the first reads as a smaller number if and only if the date it stands for is earlier and the later one is after the first second of 1970 and is not the leap second right behind it |
| `CivilDate.MeantCounts` | src/mcp_run_evidence.cpp:234-282 | a day up to 31 that its month does not have counts exactly as the real date that many days into the next month |
| `CivilDate.RefusedReadsZero` | src/mcp_run_evidence.cpp:252-282 | every other text reads as zero |
| `CivilDate.TimestampsCollapse` | src/mcp_run_evidence.cpp:247-290 | two days of 1969 read alike, so do the last second of 2016 and its leap second, and 30 February and 2 March of 2023 |
| `TopologyEdges.EdgeCollector.Add` | src/default_peer_topology.cpp:28-48 | an edge is refused if and only if it is out of range, a loop, invalid or in conflict; otherwise the graph gains exactly it |
| `TopologyEdges.EdgeCollector.AddBoth` | src/default_peer_topology.cpp:50-56 | both directions of a plain edge are added |
| `TopologyResolve.ResolveEdges` | src/default_peer_topology.cpp:289-397 | for the seven kinds without draws the loops succeed exactly for resolvable topologies and build exactly the edge set the kind stands for |
| `TopologyResolve.RequireExactNodePartition` | src/default_peer_topology.cpp:103-131 | accepts exactly non-empty lists of non-empty groups that hold every node once |
| `TopologyResolve.AddFullMesh` | src/default_peer_topology.cpp:83-92 | all ordered pairs of different listed nodes |
| `TopologyResolve.AddRing` | src/default_peer_topology.cpp:297-303 | each node and its successor, both ways |
| `TopologyResolve.AddStar` | src/default_peer_topology.cpp:304-313 | the centre and every other node, both ways |
| `TopologyResolve.AddMatrix` | src/default_peer_topology.cpp:320-344 | an edge with its delay for each latency; refused exactly for a wrong shape, diagonal or delay |
| `TopologyResolve.AddConfigured` | src/default_peer_topology.cpp:254-269 | active edges in their directions; inactive ones are checked but not added |
| `TopologyResolve.AddRegionEdges` | src/default_peer_topology.cpp:371-394 | region edges join the first nodes of their regions |
| `TopologyResolve.AddDefaultLinks` | src/default_peer_topology.cpp:363-370 | without region edges all first nodes are joined |
| `TopologyRemap.RemapResolves` | src/default_peer_topology.cpp:418-572 | for all nine kinds a topology that resolves still resolves after any injective compact renaming that keeps a node |
| `TopologyRemap.RemapKeepsEdges` | src/default_peer_topology.cpp:418-572 | for full mesh, custom edges, latency matrix, groups and a star with kept centre the new edges are exactly the kept edges renamed |
| `TopologyRemap.RegionsResolve` | src/default_peer_topology.cpp:532-570 | regions still partition and their links still do not clash, with the default links when none is kept |
| `TopologyExact.RemapExactly` | src/default_peer_topology.cpp:418-572 | for every kind without draws the new edges are exactly the kept edges renamed if and only if a condition on what was removed holds: always, or one of the three below |
| `TopologyExact.StarExactly` | src/default_peer_topology.cpp:453-455 | a star: its centre stays, or a single node is left |
| `TopologyExact.RingExactly` | src/default_peer_topology.cpp:297-303 | a ring: one node is left, or two neighbours are, or nothing was removed and neighbours have neighbouring names |
| `TopologyExact.RegionsExactly` | src/default_peer_topology.cpp:532-570 | regions: every link between two kept regions keeps both nodes it joins, and configured region edges do not all disappear while two regions stay |
| `TopologyRemap.RemapTopology` | src/default_peer_topology.cpp:418-572 | refused exactly for a renaming that is not injective and compact or one that keeps some node but does not cover every node the topology mentions; otherwise the default when nothing is kept, and else the remapped topology |
| `TopologyRemap.CheckRenaming` | src/default_peer_topology.cpp:421-440 | accepts exactly the injective compact renamings |
| `TopologyRemap.KeptPartition` | src/default_peer_topology.cpp:485-507 | dropping and renaming nodes leaves a partition of the new nodes |
| `TopologyRemap.RemapMatrix` | src/default_peer_topology.cpp:509-530 | the matrix read through the inverse renaming |
| `TopologyPeers.ResolveTopology` | src/default_peer_topology.cpp:289-400 | all nine kinds: resolves exactly the resolvable topologies; a random graph has its exact number of edges, a scale-free one also its degrees and exactly m earlier neighbours per node |
| `TopologyPeers.RemapThenResolve` | src/default_peer_topology.cpp:418-572 | remapping and then resolving always succeeds for a topology that resolved, with exactly the renamed edges for the five exact kinds |
| `TopologyRandom.ThresholdIsRemainder` | src/default_peer_topology.cpp:138-140 | the rejection threshold is 2^64 mod u |
| `TopologyRandom.DrawsAreUniform` | src/default_peer_topology.cpp:133-147 | each residue below u has exactly floor(2^64 / u) accepted words |
| `TopologyRandom.Generator.Draw` | src/default_peer_topology.cpp:133-147 | the residue of the first accepted word; terminates on every accepting stream |
| `TopologyRandom.Candidates` | src/default_peer_topology.cpp:156-166 | every unordered pair of different nodes exactly once, n(n - 1)/2 of them |
| `TopologyRandom.Shuffle` | src/default_peer_topology.cpp:168-174 | the in-place shuffle is a permutation whatever is drawn |
| `TopologyRandom.AddRandomGraph` | src/default_peer_topology.cpp:149-182 | exactly floor(n * degree / 2) different undirected edges, refused exactly for a degree of n or more |
| `TopologyScaleFree.AddScaleFree` | src/default_peer_topology.cpp:184-252 | terminates on every accepting stream without its overflow or no-candidate errors; a symmetric, loop-free, connected graph of m(m + 1) + 2m(n - m - 1) directed edges with a true degree table, every node with exactly m different earlier neighbours, or all of them |
| `TopologyScaleFree.Choose` | src/default_peer_topology.cpp:220-244 | the draw falls into the chosen node's share of the candidates' total degree; the node is an earlier one not selected yet |
| `TopologyScaleFree.ChanceIsDegree` | src/default_peer_topology.cpp:220-244 | of the accepted words, exactly the share of its degree in the total chooses a node, and no word chooses two |
| `TopologyScaleFree.Select` | src/default_peer_topology.cpp:218-245 | exactly m different earlier nodes |
| `TopologyScaleFree.Attach` | src/default_peer_topology.cpp:217-251 | each new node gets exactly m edges to earlier nodes |
| `TopologyScaleFree.TotalWeight` | src/default_peer_topology.cpp:220-229 | the weight sum never overflows 64 bits |
| `TopologyScaleFree.AddClique` | src/default_peer_topology.cpp:206-214 | the first m + 1 nodes form a clique with true degrees |
| `TopologyScaleFree.EarlierConnects` | src/default_peer_topology.cpp:217-251 | a symmetric graph in which every later node has an earlier neighbour is connected |
| `ShellWords.CopyableShellCommandLines` | src/operator_connection.cpp:76-115 | every line fits the width and the lines joined by newlines scan under POSIX quoting and continuation to exactly the arguments; refused exactly for a NUL; the first argument is the command name if and only if it is no bare assignment or reserved word, nor, broken over lines, begins with bare pieces that are an assignment |
| `ShellWords.ShellCommand` | src/operator_connection.cpp:42-52 | the command scans back to exactly executable and arguments; refused exactly for an empty executable or a NUL; a shell takes the executable for the command name if and only if it is not a bare assignment or reserved word |
| `ShellWords.NamesExecutable` | src/operator_connection.cpp:42-52 | the first printed word is the command name exactly unless it is printed bare and is an assignment or a reserved word |
| `ShellWords.LinesNameExecutable` | src/operator_connection.cpp:76-115 | the same on lines, where a long executable is printed in pieces |
| `ShellWords.PiecesAssign` | src/operator_connection.cpp:96-109 | an argument in pieces reads as an assignment if and only if its name and equals sign lie in pieces that are printed bare |
| `ShellWords.BreakingMistakes` | src/operator_connection.cpp:96-109 | the concrete executable that is quoted in a command and taken for an assignment on lines of 16 columns |
| `ShellWords.PathsAreNotMistaken` | src/operator_connection.cpp:42-52 | a path from the root or the working directory is never mistaken; two names that are |
| `ShellWords.ShellWord` | src/operator_connection.cpp:11-20 | a safe value as it is, any other quoted, a NUL refused |
| `ShellWords.PosixShellQuote` | src/operator_connection.cpp:24-40 | single quotes around, each apostrophe spliced in through double quotes |
| `ShellWords.WordScans` | src/operator_connection.cpp:11-40 | a printed word adds exactly its value to the word being scanned |
| `ShellWords.PrintPieces` | src/operator_connection.cpp:96-109 | a long argument printed in pieces over several lines scans as one word |
| `ShellWords.PrintArgument` | src/operator_connection.cpp:83-109 | an argument on the line at hand, on a new line or in pieces scans as one more word |
| `ChainView.View.UpdateTip` | src/chain_view.cpp:154-186 | a new tip keeps exactly the cached entries that are still canonical; a failed read changes nothing |
| `ChainView.AnchorIsExact` | src/chain_view.cpp:163-180 | cutting at the highest agreeing cached block keeps exactly the canonical entries |
| `ChainView.AllStay` | src/chain_view.cpp:157-161 | when the old tip is on the new chain every cached entry is |
| `ChainView.View.Trim` | src/chain_view.cpp:125-152 | the most recently used entries stay, at most 64; the served entry and its details stay |
| `ChainView.View.Fetch` | src/chain_view.cpp:266-293 | a cached or newly read entry is the chain's and becomes the most recently used |
| `ChainView.View.Query` | src/chain_view.cpp:188-384 | a retained query gives a page exactly when a block was captured, with a row and detail exactly where they are cached; a live one fails only if every source or the chosen one does; its page has rows exactly if the source still holds the shown tip at the end, and then every block shown is still the source's; every cached block is canonical and not above the tip, and the bounds hold |
| `ChainView.View.ReadPage` | src/chain_view.cpp:253-366 | rows, details and the adjacent summaries of one page; a healthy source fills every row |
| `ChainView.View.Connect` | src/chain_view.cpp:209-233 | the current source is preferred; another source starts from an empty cache |
| `ChainView.View.Detail` | src/chain_view.cpp:309-352 | the details shown belong to the selected canonical block and are cached |
| `ChainView.View.Refresh` | src/chain_view.cpp:366-377 | the tip is asked for once more: the page stands if and only if the source still has the shown chain, otherwise it is emptied and the cache cut to the new chain; a failed read changes nothing, and trims nothing |
| `ChainView.HeldExactly` | src/chain_view.cpp:367-371 | one hash comparison decides whether the whole shown chain is still there |
| `ChainView.PageBounds` | src/chain_view.cpp:253-264 | at most the requested rows, inside the chain; the selection is the height asked for when it exists and the tip otherwise; by default the page holds it, as its last row unless the page starts at genesis |
| `ChainCache.EvictEntries` | src/chain_view.cpp:125-133 | keeps exactly the 64 most recently used entries |
| `ChainCache.DropDetails` | src/chain_view.cpp:134-152 | details stay exactly where fewer than four are more recent and the more recent ones that stay leave room within two mebibytes |
| `ChainCache.GreedyMeans` | src/chain_view.cpp:134-152 | the details left are at most four within the byte bound; details within the bounds all stay, and so does the newest that fits at all |
| `PendingCommands.RunKeepsInv` | src/mcp_live_application.cpp:3232-3405 | in every interleaving each entry is owned by its one waiter or detached, a completed entry has its outcome, and the map is within its bound |
| `PendingCommands.NoLogicError` | src/mcp_live_application.cpp:3326-3404 | "outcome was lost", "outcome is missing", "duplicate" and "ended unexpectedly" are unreachable |
| `PendingCommands.ReturnsForGood` | src/mcp_live_application.cpp:3274-3405 | a waiter that returned took one outcome, and nothing later changes it |
| `PendingCommands.LateOutcomeErases` | src/mcp_live_application.cpp:3553-3582 | over every continuation a detached command stays pending until its first outcome and is never pending again after it |
| `PendingCommands.OutcomeReachesWaiter` | src/mcp_live_application.cpp:3326-3337 | the first outcome of an owned command is its waiter's from then on: in every continuation without a second outcome or an exception of the waiter it is returned or about to be taken |
| `PendingCommands.DeliversAtOnce` | src/mcp_live_application.cpp:3326-3404 | the waiter's next locked section takes the outcome, whatever woke it |
| `PendingCommands.ReturnedWasPublished` | src/mcp_live_application.cpp:3274-3405 | in every run a returned outcome was published for that command; a repeated one stands for at least two publications, an unconfirmed one for the expiry of the second wait |
| `PendingCommands.SubmitKeepsInv` | src/mcp_live_application.cpp:3232-3254 | a submission keeps the invariant and never meets a duplicate |
| `PendingCommands.WakeKeepsInv` | src/mcp_live_application.cpp:3286-3356 | the end of the first wait keeps the invariant |
| `PendingCommands.DrainKeepsInv` | src/mcp_live_application.cpp:3357-3404 | the end of the second wait keeps the invariant |
| `PendingCommands.DetachKeepsInv` | src/mcp_live_application.cpp:3256-3272 | detaching keeps the invariant |
| `PendingCommands.RecordKeepsInv` | src/mcp_live_application.cpp:3553-3582 | publishing an outcome keeps the invariant |
| `CommandCorrelation.Correlation.SubmitCommand` | src/mcp_live_application.cpp:3232-3254 | a new sequence exactly when not stopping and below 256 entries |
| `CommandCorrelation.Correlation.EndWait` | src/mcp_live_application.cpp:3326-3356 | takes the outcome exactly when it is there, never throws |
| `CommandCorrelation.Correlation.EndDrain` | src/mcp_live_application.cpp:3375-3404 | takes the outcome, or detaches when the bound expired; never throws |
| `CommandCorrelation.Correlation.PushElsewhere` | src/mcp_live_application.cpp:3245-3246 | a command of another origin takes a sequence of the shared queue |
| `CommandCorrelation.Correlation.StopRun` | src/mcp_live_application.cpp:3286-3293 | the flags that end every first wait |
| `CommandCorrelation.Correlation.BeginReport` | src/mcp_live_application.cpp:3306-3310 | a waiter leaves the lock to report progress |
| `CommandCorrelation.Correlation.EndReport` | src/mcp_live_application.cpp:3310-3313 | it comes back, or unwinds when the report threw |
| `CommandCorrelation.Correlation.BeginDrain` | src/mcp_live_application.cpp:3344-3356 | cancellation requested; the second wait begins |
| `CommandCorrelation.Correlation.DetachPendingCommand` | src/mcp_live_application.cpp:3256-3272 | erases a completed entry, detaches any other |
| `CommandCorrelation.Correlation.RecordCommandOutcome` | src/mcp_live_application.cpp:3553-3582 | completes, overwrites or erases the entry |
| `DigestHeader.QuotedReads` | src/http_client.cpp:241-279 | every control-free value printed in quotes is read back exactly, up to right after the closing quote |
| `DigestHeader.AuthorizationReads` | src/http_client.cpp:281-361 | within the size limits parsing a printed authorization header recovers realm and nonce with stale false |
| `DigestHeader.FieldsRead` | src/http_client.cpp:302-331 | a printed parameter list is read back as exactly its parameters |
| `DigestHeader.ParseDigestValue` | src/http_client.cpp:241-279 | reads a token or a quoted string and stops right after it |
| `DigestHeader.ParseHttpToken` | src/http_client.cpp:228-239 | the longest token at the position, or refused |
| `DigestHeader.ParseDigestChallenge` | src/http_client.cpp:281-361 | malformed, unsupported or the challenge |
| `DigestHeader.QuotedDigestValue` | src/http_client.cpp:390-407 | quotes and backslashes escaped; refused exactly for a control character |
| `DigestHeader.DigestAuthorization` | src/http_client.cpp:409-425 | the header in its fixed order; refused exactly for control characters |
| `LogTail.ReadRecentLogLines` | src/log_view.cpp:21-79 | exactly the last lines of the forward split, for every content and count; the missing-newline exit is never taken |
| `LogTail.ReadBack` | src/log_view.cpp:36-58 | the assembled tail is a suffix of the file that holds more newlines than lines wanted, or the whole file |
| `LogTail.LastLines` | src/log_view.cpp:67-78 | the sliding window holds the last lines of the split |
| `LogTail.ReverseFront` | src/log_view.cpp:54-58 | the front of the buffer is reversed in place |
| `LogTail.SplitAfterNewline` | src/log_view.cpp:59-65 | lines after a newline do not depend on what precedes it |
| `LogTail.CutIsHarmless` | src/log_view.cpp:59-65 | dropping the cut first line leaves the last lines unchanged |

## Left out

- Identity-less scope states of older versions, ownership files of runs and the run-root identity checks.
- Descriptors, mount identities, fsync and rename; the retry of process moves when processes come and go; deadlines and stop tokens, except as steps or failures that may happen at any time.
- Typed results, error diagnostics, run identifiers and the stored evidence items of subscriptions in the operation service; a failure of memory allocation at a worker's thread boundary.
- JSON, the family tables and event matching of evidence queries (a record's families are an arbitrary function of its text), end sequences, artifacts, and the family fingerprint (an arbitrary number).
- Shell aliases, and words a shell dialect reserves beyond POSIX.
- The order of resolved edges, seeds and the Mersenne Twister.
- Saving and loading the captured blocks, confirmations and next hashes, wrap-around of the 64-bit use counter.
- Command kinds, commit phases and published evidence of command outcomes; the queue that issues the sequences is a counter.
- Choosing among several digest challenges; locale-dependent case folding.
- Read errors and concurrent truncation of a log file.
- The terminal user interface, the MCP transport, schemas, drivers, network rules and process supervision.
