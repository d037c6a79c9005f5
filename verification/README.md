# Verified model of xray-api's control plane

xray-api keeps the desired state of a fleet of Xray proxy nodes in PostgreSQL and drives every node towards it. This
project models the four parts of it that are hard to get right, and proves what they guarantee over whole runs.

1. **Convergence** (`Protocol`, `ProtocolInvariant`, `HistoryInert`, `Convergence`, `Retirement`, `Deletion`,
   `ReplaceRace`, `Races`, `Pass`, `Reconciler`, `Health`). The database holds users, inbounds and assignments; each
   node holds a volatile set of (tag, email) entries; one actor per node runs reconcile passes, woken through a one-slot
   channel. Every database statement, RPC and channel operation is one action of a state machine, so a run is any
   interleaving of requests on users and assignments, sweeps, passes, node restarts, service restarts and failures. A
   request that reads a record and writes it back later is two actions. A failed RPC may or may not have taken effect.
   `Reconciler` is the actor's loop as an imperative class, proved to perform runs of one actor's steps while nobody
   else writes the store; the interleavings are in the state machine. `ReplaceRace` and `Races` are runs in which a
   guarantee is lost.
2. **Metering** (`StatNames`, `Collector`, `TrafficStore`, `Fleet`). Counters that are reset on read flow through parsing, an
   in-memory carry-over buffer and one transaction into totals and snapshots, with a failure possible at each stage.
3. **Lifecycle and billing** (`Lifecycle`, `Sweeps`, `Requests`, `UserService`, `ServiceSteps`, `Billing`,
   `WebhookStreams`, `Seqs`).
   Status changes by administrators, renewals, sweeps and at-least-once webhooks. The services are imperative classes over
   a store; each request is proved equal to a function on tables, and the laws are proved about those functions over
   every run. `ServiceSteps` ties these writes back to the protocol.
4. **Rate limiting** (`RateLimiter`). Per-IP token buckets with eviction of idle ones, in exact integer arithmetic.

The outcomes of database statements, dials and RPCs are parameters (`Fault`, `recordFails`, `Luck`), so that contracts
say when an operation must get through; only whether a failed RPC took effect is left open. The clock and freshly drawn
identifiers are parameters.

## Where the code falls short of its comments or documentation

The model follows the code. Each of these is a lemma below, with the exact condition where there is one.

- Rotating a subscription token writes back the whole record it read and wakes nobody. If the user went into or out of
  service meanwhile, the rotation undoes that, and a node is left out of step with nothing announcing it
  (`RewriteMissesExactly`, `RotationStrandsNode`).
- Two overlapping `SetInbounds` for one user can leave a node serving a retired assignment with nothing announcing it,
  because the old targets are read before the transaction (`ReplaceMissesExactly`, `OverlappingReplacesStrandNode`).
- An assignment retired while a pass holds its push may come back to life when that push ends, even if the push fails
  (`RetirementLastsExactly`, `RetirementLost`). Listing a tombstoned inbound again leaves it tombstoned
  (`ReplacementMeans`).
- Deleting a user does not make a live node drop it; the comment at internal/service/users.go:326-328 covers offline
  nodes only. A pass in flight may even push the user afterwards (`DropLeaksExactly`, `DropMayLeakExactly`,
  `LeakPersists`, `DeletedUserServed`).
- A pass that takes the token and then cannot dial or read forgets the trigger until the next tick; so does a service
  restart, and nothing else (`WakeupLostExactly`).
- docs/billing-webhooks.md:70 says a renewal restores a cancelled user. It does not (`CancelledUntilResumed`).
- docs/billing-webhooks.md:95-96 promises safe retries. A retry of an event whose first execution failed is acknowledged and
  dropped (`RetryAfterError`, `LostRenewal`).
- A renewal leaves an active user active even over quota (`RenewedActiveExactly`); a traffic reset reactivates a user
  whose limit is zero or less (`ResetActiveExactly`).
- Any update, even of the note alone, puts an expired user with a future expiry in service without a look at the quota
  (`UpdatedActiveExactly`, `NoteRevivesRenewed`).
- `Renew`, `Update`, `ResetTraffic` and `RotateSubToken` are not atomic, though internal/service/users.go:251 says so of
  the first: a disabling between their read and their write may be taken back (`StaleWriteUndoesDisabling`), a renewal
  overtaken by traffic may put a user in service over quota (`StaleRenewalIgnoresTraffic`), an update or rotation that
  overtakes a renewal puts the old expiry back (`LateWriteUndoesRenewal`), and of two overlapping renewals one is lost
  (`OverlappingRenewalsLoseOne`).
- An actor that has never reached its node never records it offline (`Health.Monitor.CheckHealth`).

## Model

| member | source | states |
|---|---|---|
| Convergence.Converges | internal/worker/reconciler.go:16-67 | After every run from any database state: a node that differs from its desired set has a trigger pending or owed, a pass in flight, an abort or restart since its last removals read, or since then a failed lookup or a row that came to be wanted or unwanted untold; surplus entries are orphans |
| Convergence.SurplusWasDropped | internal/service/users.go:325-330 | On a quiet node told of every change, an entry not asked for was an orphan at the start or carries the email of a user dropped during the run |
| Convergence.ConvergesExactly | internal/worker/manager.go:141-167 | On runs without deletions, failed lookups, overtaken replacements and untold service changes the node then holds exactly the desired entries |
| Convergence.OrderlyStaysPristine | internal/worker/manager.go:153-167 | Such runs never leave a node unsignalled and never create leftovers |
| Convergence.NoLostWakeup | internal/worker/nodeactor.go:55-60 | Over every run the newest write any trigger stands for is covered by the token, by a pass yet to read or by a later removals read, unless that pass gave up before reading or the service restarted; the desired read is later still |
| Convergence.WakeupLostExactly | internal/worker/reconciler.go:17-27 | From every reachable state an action leaves a covered trigger uncovered if and only if its write is unread and either the service restarts or the pass gives up before its removals read with no further token waiting |
| Convergence.WakeupsKept | internal/worker/nodeactor.go:84-98 | On every run without such an action every wake-up is covered throughout |
| Convergence.ReplaceMissesExactly | internal/service/users.go:176-186 | The commit of a replacement leaves a settled node out of step and unannounced if and only if it retires a wanted row on a node outside both the targets read before and the new inbounds' nodes |
| Convergence.SerialReplaceMissesNobody | internal/service/users.go:176-186 | If the targets read before still cover the user's nodes at commit, nobody is missed |
| Convergence.TombstoneMissesExactly | internal/service/users.go:314-325 | A deletion's tombstones strand a settled node if and only if it loses a wanted row and is not among the targets read |
| Convergence.FailedLookupStrandsExactly | internal/worker/manager.go:153-158 | A failed lookup strands a node that waits for nothing else if and only if a row of the user looked up is astray there |
| Convergence.WriteMissesExactly | internal/store/users.go:135-151 | A write to the users table leaves a settled node out of step and unannounced if and only if it takes a user with a live row there into or out of service and no user of the node is told |
| Convergence.RewriteMissesExactly | internal/service/users.go:302-312 | A token rotation strands a settled node if and only if the user has a live row there and went into or out of service since the record was read |
| Races.RotationStrandsNode | internal/service/users.go:302-312 | From every start with an assigned active user, for every way out of service: a failure-free run with an overtaken rotation ends with the node idle, unannounced and out of step |
| Retirement.OnlyTombstonesVanish | internal/worker/reconciler.go:38-44 | In any reachable state an action deletes a row only if it is tombstoned, or together with its user |
| Retirement.TombstoneUndoneOnlyByMark | internal/store/assignments.go:62-74 | A tombstone is taken back by an action if and only if that action is the successful mark ending a push of that row |
| Retirement.NotPushedEndures | internal/worker/reconciler.go:47-66 | Over every run a tombstone that no pass is pushing stays a tombstone, and unpushed, until it is gone |
| Retirement.HeldPushRevives | internal/worker/reconciler.go:54-65 | From every state in which a pass still holds a push of a tombstoned row, some run of that pass brings the row back without its having been gone |
| Retirement.RetirementLastsExactly | internal/store/assignments.go:61-74 | A retirement lasts on every run if and only if no pass holds a push of the row at that moment |
| Retirement.CommitRetiresExactly | internal/store/assignments.go:76-107 | At the commit of a replacement or a deletion's tombstones: the same condition, read off the state before the commit |
| Races.RetirementLost | internal/service/users.go:165-188 | From every start with one assignment: a failure-free run in which the withdrawn assignment ends up live and served |
| Deletion.LeakPersists | internal/service/users.go:314-331 | An entry whose user is gone survives every run until the node restarts or the email is reused |
| Deletion.DestinyKept | internal/worker/reconciler.go:28-66 | On every run whose calls on the node succeed, whether an entry of a deleted user ends up on the node is settled at the start |
| Deletion.NeverAppears | internal/worker/reconciler.go:52-66 | On every run, failures included, an entry of a deleted user neither held nor about to be pushed never appears |
| Deletion.DropLeaksExactly | internal/service/users.go:325-330 | In every phase of the node's pass: dropping the user row leaks an entry at once if and only if it is held and not listed for removal; after every smooth run that ends idle it is leaked if and only if it was so or was listed for push |
| Deletion.DropLeaksForGood | internal/service/users.go:325-330 | What is leaked then stays so through every further run that spares it |
| Deletion.DropMayLeakExactly | internal/service/users.go:325-330 | Counting failures, the entry may leak if and only if it was held or listed for push at the drop |
| Races.DeletedUserServed | internal/service/users.go:314-331 | From every start with one assignment: a failure-free run in which the node is told, the user deleted and then pushed for good |
| ReplaceRace.OverlappingReplacesStrandNode | internal/service/users.go:165-188 | From every fresh service two overlapping replacements with no failure reach an idle, unannounced node that serves a retired assignment |
| ProtocolInvariant.StepInv | internal/worker/reconciler.go:16-67 | Every enabled action keeps the row-by-row invariant that relates entries, rows, phases, tokens and pending operations |
| ProtocolInvariant.RunInv | internal/worker/nodeactor.go:71-101 | So does every run |
| ProtocolInvariant.InitInv | internal/worker/manager.go:73-98 | The invariant holds when the service starts on any database and node contents in which every entry has a row |
| HistoryInert.HistoryIsInert | internal/worker/nodeactor.go:71-101 | The nodes' history fields of the model never decide which runs are possible nor where they lead |
| Pass.StepNarrows | internal/worker/reconciler.go:23-66 | No step of an undisturbed pass, whatever it reports, widens the symmetric difference of node and desired set |
| Pass.PassNarrows | internal/worker/reconciler.go:16-67 | Neither does any prefix of a pass |
| Pass.CleanPassSettles | internal/worker/reconciler.go:16-67 | A pass in which everything succeeds ends with the node holding what is desired, no tombstone left and every pushed row marked |
| Pass.SecondPassChangesNothing | internal/worker/reconciler.go:13-15 | A further clean pass changes neither the node nor a row |
| Pass.FinishedPassInStep | internal/worker/reconciler.go:38-66 | A pass that reaches its end is in step even if deletes and marks failed to be written |
| Pass.RestartEmpties | internal/worker/nodeactor.go:151-153 | A restart between passes empties the node and its leftovers and leaves the database alone |
| Pass.RestartHeals | internal/worker/nodeactor.go:150-158 | After a node restart a pass that reaches its end leaves exactly the desired entries, whatever was leaked or missed before |
| Reconciler.NodeActor.Reconcile | internal/worker/reconciler.go:16-67 | The loop is a run of the protocol for every outcome of every call and never widens the gap; it gets through if and only if the dial, both reads and every remove and add succeed, and then entries and rows are exactly those of a whole pass, in step, and settled when no write failed; a failed call drops the client, a failed push is recorded on its row |
| Reconciler.NodeActor.RunPass | internal/worker/reconciler.go:16-67 | The same without the invariant: when it gets through, what node and rows then are, when the client is kept |
| Reconciler.NodeActor.RemoveAll | internal/worker/reconciler.go:28-45 | Gets through if and only if no remove fails; then exactly the targets' entries and the tombstoned rows whose deletion succeeded are gone |
| Reconciler.NodeActor.AddAll | internal/worker/reconciler.go:52-66 | Gets through if and only if no add fails; then exactly the targets' entries are added and unmarked rows marked save where the mark failed; otherwise some failed target is recorded as failed |
| Reconciler.NodeActor.Push | internal/worker/reconciler.go:47-67 | Desired read followed by the push loop, with the same exact outcome |
| Reconciler.NodeActor.EnsureClient | internal/worker/nodeactor.go:103-113 | Keeps a client it has; otherwise holds one exactly if dialing succeeds |
| Reconciler.Store.RemovalsForNode | internal/store/assignments.go:122-133 | Returns exactly the node's rows that are tombstoned or belong to users not active |
| Reconciler.Store.DesiredForNode | internal/store/assignments.go:109-120 | Returns exactly the node's live rows of active users |
| Reconciler.Store.DeleteAssignment | internal/store/assignments.go:83-88 | Removes that row and no other, or fails without effect |
| Reconciler.Store.MarkAssignmentSynced | internal/store/assignments.go:61-74 | Overwrites the status of an existing row whatever it was |
| Reconciler.EndOfPass | internal/worker/reconciler.go:16-67 | A finished run of pass steps leaves the node in step, and settled when everything succeeded |
| Reconciler.PassRowsSettle | internal/worker/reconciler.go:38-66 | The rows of a whole pass leave no tombstone and no unmarked wanted row if no write failed |
| Health.Monitor.CheckHealth | internal/worker/nodeactor.go:122-159 | The fields stay a function of the probe history; a pass starts exactly on a first success, after three failures or on an uptime drop; what is recorded and when |
| Health.RestartIsDetected | internal/worker/nodeactor.go:146-157 | A restart between two successful probes is detected if the earlier uptime is at least the gap |
| Health.NoFalseRestart | internal/worker/nodeactor.go:146-157 | Without a restart the later probe starts a pass if and only if three or more probes failed in between |
| Health.LostKeepsUptime | internal/worker/nodeactor.go:130-142 | Failed probes do not touch the remembered uptime |
| Health.LostCounts | internal/worker/nodeactor.go:130-142 | Failed probes add up until a success |
| Health.OnlineExactly | internal/worker/nodeactor.go:130-149 | Read off the history: online if and only if one of the last three probes succeeded |
| Health.PassExactly | internal/worker/nodeactor.go:144-158 | Read off the history: a success starts a pass if and only if three probes failed since the last one or the uptime fell |
| Health.FirstSuccessCalls | internal/worker/nodeactor.go:144-158 | The first successful probe always starts a pass |
| StatNames.RenderThenParse | internal/xray/stats.go:50-67 | Parsing a rendered counter name returns its non-empty email and direction, whatever the email contains |
| StatNames.ParseThenRender | internal/xray/stats.go:50-67 | Every accepted name is the rendering of its result |
| StatNames.ParseIsInverse | internal/xray/stats.go:50-67 | A name parses to an email and direction if and only if it is that rendering |
| StatNames.XrayNames | internal/xray/stats.go:47-49 | The literal uplink and downlink names of every non-empty email parse to that email and that direction |
| StatNames.LastIndex | internal/xray/stats.go:57-60 | The greatest position at which the separator occurs, or -1 |
| Collector.QueryUserTraffic | internal/xray/stats.go:22-44 | The aggregate holds per email and direction exactly the sum of the counters that parse to it |
| Collector.QueryMovesCounter | internal/xray/stats.go:11-21 | A successful read with reset hands over exactly what the node held for an email and leaves it nothing |
| Collector.XrayStats.QueryStats | internal/xray/stats.go:15-21 | Reports every matching counter once and zeroes those reported; a failed query resets nothing |
| Collector.UserIDsByEmail | internal/store/users.go:167-188 | Maps exactly the asked emails that belong to users to those users |
| Collector.Merge | internal/worker/collector.go:30-40 | The buffer gains exactly what was read, per email and direction |
| Collector.BuildDeltas | internal/worker/collector.go:56-68 | Known emails become deltas carrying the buffered bytes of that user, unknown ones are dropped, nothing else |
| Collector.NodeActor.Collect | internal/worker/collector.go:15-88 | Unread if and only if dial or query fails; if lookup and commit succeed the buffer ends empty, otherwise nothing is stored; each case is a step of the metering run, stored bytes are credited to the users of the known emails and the suspended users are reported |
| Collector.NodeActor.Persist | internal/worker/collector.go:45-80 | Stores if and only if there is something to store and lookup and commit succeed; otherwise buffer, totals and postings stay |
| Collector.GrowConserves | internal/worker/collector.go:12-14 | Traffic on the node keeps the balance |
| Collector.CollectConserves | internal/worker/collector.go:15-88 | Collecting keeps the balance, wherever it stops |
| Collector.FlushConserves | internal/worker/collector.go:45-80 | Storing the buffer keeps the balance, whichever emails are known |
| Collector.RunConserves | internal/worker/collector.go:15-88 | Over every run, per email and direction: generated = on the node + buffered + stored + dropped |
| Fleet.FleetStepSound | internal/store/traffic.go:19-62 | Every such step keeps postings and credits equal, user by user |
| Fleet.EveryByteAccounted | internal/worker/collector.go:15-88 | Over every run of any number of actors, resets, new users and edits, with others coming between resolving and commit: a user's bytes = on the nodes + buffered + used + forgiven + dropped |
| Fleet.StrangersAccounted | internal/worker/collector.go:56-68 | An email that is nobody's is never credited: its bytes are on the nodes, buffered or dropped |
| TrafficStore.Store.ApplyTrafficDeltas | internal/store/traffic.go:16-62 | Commits if and only if the transaction does and every delta's user exists; then totals gain the deltas, every report gains them in the bucket of this node or day if its range includes this instant and nowhere else, and exactly the active users over quota are suspended and reported; otherwise nothing changes |
| TrafficStore.Accumulate | internal/store/traffic.go:22-38 | The transaction's loop: totals and rows of all deltas, idle ones skipped, aborted if and only if some delta names an unknown user |
| TrafficStore.SuspendOverQuota | internal/store/traffic.go:39-56 | Flips and returns exactly the active users at or over their limit |
| TrafficStore.CreditsMatchSnapshots | internal/store/traffic.go:22-38 | What a user's totals gain in a commit is what its snapshots record for that user |
| TrafficStore.CommitBalances | internal/store/traffic.go:22-56 | A commit keeps totals plus forgiven bytes equal to all snapshot bytes ever inserted |
| TrafficStore.ResetBalances | internal/store/users.go:154-159 | So does a reset, which forgives what it zeroes |
| TrafficStore.Store.ResetTraffic | internal/store/users.go:153-159 | Zeroes one user's totals, keeps the balance, reports an unknown user |
| TrafficStore.Store.Enroll | internal/store/users.go:39-48 | A new user starts balanced with empty counters |
| TrafficStore.Store.PruneSnapshots | internal/store/traffic.go:101-109 | Deletes exactly the snapshots older than the cutoff, counts them, and leaves the totals balanced |
| TrafficStore.ReportsAgree | internal/store/traffic.go:71-99 | Each bucket holds its key's bytes, and day report and node report both total the snapshots in range |
| TrafficStore.OneBucketPerKey | internal/store/traffic.go:81-85 | A report has one bucket for each key that occurs in range and no other |
| TrafficStore.CommitShowsInReports | internal/store/traffic.go:26-30 | For every user, range, grouping and bucket: a commit adds that user's deltas to the bucket of its node or day if the range includes its instant, and changes no other bucket |
| TrafficStore.RangesAdd | internal/store/traffic.go:84-84 | Totals of adjacent half-open ranges add up |
| TrafficStore.PruningKeepsReports | internal/store/traffic.go:101-109 | Pruning changes no report that starts at or after the cutoff |
| TrafficStore.PruningTakesExactly | internal/store/traffic.go:101-109 | Pruning removes every snapshot before the cutoff, as often as it occurs, and no other |
| TrafficStore.PruningEmptiesReports | internal/store/traffic.go:101-109 | A report that ends at or before the cutoff is empty after pruning |
| Sweeps.SweepsConfluent | internal/store/traffic.go:39-56 | In either order the sweeps leave active exactly the active users within quota and unexpired, and together report exactly those taken out |
| Sweeps.SweepsReportExactly | internal/store/users.go:190-208 | Each sweep returns exactly the ids it flipped and touches nobody who was not active |
| Sweeps.BothOrders | internal/domain/user.go:43-50 | Per user, both orders agree on service and on being reported |
| Lifecycle.DisabledHolds | internal/service/users.go:287-292 | No operation but a resume or an update naming a status takes a user out of disabled, whatever fails |
| Lifecycle.DisabledUntilReinstated | internal/service/users.go:131-299 | The same over every run |
| Lifecycle.ReactivationIsSound | internal/service/users.go:194-209 | A resume or renewal into service leaves the user within quota and unexpired at that instant |
| Lifecycle.RenewedActiveExactly | internal/service/users.go:262-292 | From the record before and the request alone: when a renewal leaves the user active, when active over quota, and when active and expired, each if and only if |
| Lifecycle.ResetActiveExactly | internal/service/users.go:219-236 | From the record before alone: when a reset leaves the user active, when active over quota, and when active and expired, each if and only if |
| Lifecycle.UpdatedActiveExactly | internal/service/users.go:131-162 | From the record before and the request alone: when an update leaves the user active, when active over quota, and when active and expired, each if and only if |
| Lifecycle.NoteRevivesRenewed | internal/service/users.go:153-156 | For every expired user over quota: a renewal leaves it expired, and a change of the note then makes it active over quota |
| Lifecycle.StaleWriteUndoesDisabling | internal/store/users.go:135-151 | A user disabled between the read and the write of a renewal, update or token rotation stays disabled if and only if it was disabled when read, and of a reset if and only if it was not suspended and unexpired when read |
| Lifecycle.LateFormsAgree | internal/service/users.go:219-299 | With nothing between read and write the late writes are the requests themselves |
| Lifecycle.StaleRenewalIgnoresTraffic | internal/service/users.go:285-294 | From the record read, the row written and the request: when an overtaken renewal leaves a user active over quota |
| Lifecycle.LateWriteUndoesRenewal | internal/service/users.go:302-312 | A rotation or update that read before a renewal and writes after it puts the old expiry back; the renewal survives if and only if it bought no time |
| Lifecycle.OverlappingRenewalsLoseOne | internal/service/users.go:250-298 | Of two renewals that read the same record only the second counts; that equals both in turn if and only if the first had run out by then |
| Lifecycle.RenewalsStack | internal/service/users.go:271-278 | After any positive renewals the expiry is the maximum of the old expiry plus all time bought and, for each renewal, its instant plus the time bought from it on |
| Lifecycle.ExpiryFollowsRenewals | internal/service/users.go:271-278 | On such runs the expiry is determined by the renewals that went through |
| Lifecycle.RunsStack | internal/service/users.go:253-299 | The stacking law for every run of requests, sweeps and metering in which no update sets the expiry |
| Lifecycle.RenewalsNeverShorten | internal/service/users.go:271-278 | No sequence of renewals moves an expiry back |
| Lifecycle.NobodyVanishes | internal/service/users.go:131-299 | Lifecycle operations neither add nor remove users |
| Requests.SuspendMeans | internal/service/users.go:190-192 | Granted if and only if the user exists and the write succeeds; then the status is disabled and nothing else changes; the errors |
| Requests.ResumeMeans | internal/service/users.go:194-209 | Granted if and only if the user exists, is within quota and unexpired and nothing fails; then the status is active and nothing else changes; the errors |
| Requests.ResumeUndoesSuspend | internal/service/users.go:190-209 | Suspending and resuming an active user restores the table if and only if the user is within quota and unexpired; otherwise the user stays disabled |
| Requests.ResetUndoesQuotaSweep | internal/service/users.go:219-236 | A reset after the quota sweep restores the user with empty counters if and only if unexpired |
| Requests.RenewalUndoesExpirySweep | internal/service/users.go:271-292 | A renewal after the expiry sweep restores the user with the days bought if and only if within quota |
| Requests.RenewAccepts | internal/service/users.go:253-270 | When a renewal is granted, and which error it gives otherwise |
| Requests.RenewedColumns | internal/service/users.go:262-294 | Plan, limit, counters, expiry and the untouched columns after a renewal |
| Requests.UpdateAccepts | internal/service/users.go:131-162 | When an update is granted, and which error it gives otherwise |
| Requests.UpdatedColumns | internal/service/users.go:136-159 | Every column after an update |
| Requests.ResetMeans | internal/service/users.go:219-236 | When a reset is granted, what it leaves, and which error it gives otherwise |
| Requests.RefusalsChangeNothing | internal/service/users.go:131-299 | A refused request changes nothing, except that a traffic reset stays when the write after it fails |
| Seqs.Dedup | internal/service/users.go:412-423 | First occurrences in order |
| Seqs.DistinctSound | internal/service/users.go:399-410 | No repetition, same elements, as many as there are distinct ones |
| Seqs.DistinctGrows | internal/service/users.go:412-423 | Order is that of first occurrence |
| Seqs.CountDecidesExistence | internal/service/users.go:75-77 | As many rows found as distinct ids asked for if and only if all ids exist |
| UserService.UserService.Create | internal/service/users.go:44-110 | Users, assignments and answer are those of `Created`, error by error; on success each of the user's nodes is triggered once, else none |
| UserService.UserService.SetInbounds | internal/service/users.go:165-188 | Accepted if and only if the user and every listed inbound exist and no checked statement fails; rows are the replacement; every old and new node is triggered exactly once, only the new ones if the old targets cannot be read; errors change and trigger nothing |
| UserService.UserService.Suspend | internal/service/users.go:190-192 | Table and answer are those of the lifecycle function; each of the user's nodes is triggered once on success |
| UserService.UserService.Resume | internal/service/users.go:194-209 | Refused while over quota or expired, error by error; triggers as above |
| UserService.UserService.ResetTraffic | internal/service/users.go:219-236 | Both statements with either failing; triggers as above |
| UserService.UserService.Renew | internal/service/users.go:253-299 | Validation, plan switch, extension, reset and reactivation with each statement failing; triggers as above |
| UserService.UserService.RenewWith | internal/service/users.go:262-299 | A reset stays committed even if the update after it fails |
| UserService.UserService.Update | internal/service/users.go:131-162 | The patched record, a dangling plan refused; triggers as above |
| UserService.UserService.RotateSubToken | internal/service/users.go:302-312 | With nothing in between the rotation changes no user, and it triggers no node; the errors in order |
| UserService.UserService.SetStatusAndReconcile | internal/service/users.go:211-217 | Writes the status and triggers, or reports the unknown user |
| UserService.UserService.ReconcileForUser | internal/worker/manager.go:153-167 | Triggers exactly the nodes of the user's assignments, each once; none if they cannot be looked up |
| UserService.Manager.ReconcileNodes | internal/service/users.go:382-397 | Triggers each distinct node once |
| UserService.SweepExpired | internal/worker/expiry.go:15-35 | Expires exactly the due active users and wakes exactly the nodes that carry those it can look up |
| UserService.WakeUsers | internal/worker/collector.go:82-87 | Wakes exactly the nodes of the users a sweep took out, save those it cannot look up |
| UserService.Store.ExpireDueUsers | internal/store/users.go:190-208 | Flips and returns exactly the active users whose expiry has come |
| UserService.Store.AssignmentTargetsForUser | internal/store/assignments.go:157-165 | Names exactly the nodes of the user's assignments, or fails |
| UserService.Store.ListInboundsByIDs | internal/store/inbounds.go:52-59 | The listed ids that exist |
| UserService.Store.CreateUser | internal/service/users.go:93-106 | One transaction inserts the user and a pending row per inbound, or refuses a conflict without effect |
| UserService.Store.SetAssignmentsForUser | internal/store/assignments.go:90-107 | Tombstones what is not listed, inserts what is missing, keeps the rest; a dangling id rolls it back |
| UserService.Store.SetUserStatus | internal/store/users.go:146-151 | One column of one row, or not found |
| UserService.Store.ResetTraffic | internal/store/users.go:153-159 | Both counters of one row, or not found |
| UserService.Store.UpdateUser | internal/store/users.go:135-144 | Writes the record over the row, leaving email and counters as they stand; a dangling plan or an unknown user is refused |
| ServiceSteps.EveryStatusChangeIsTold | internal/service/users.go:131-299 | Every lifecycle request or sweep, whatever fails, is an orderly protocol write: users and emails stay, and each user whose status changes is among those whose nodes are to be woken |
| ServiceSteps.CreationIsAStep | internal/service/users.go:79-108 | A successful creation is the protocol's creation step on users and rows |
| ServiceSteps.CreationMeans | internal/service/users.go:52-110 | A creation touches nobody else, assigns exactly the listed inbounds as pending, and makes the record of the request: counters zero, explicit limit and expiry before the plan's, a plan's days worth what a renewal by them buys; the user starts active, even over quota or expired, if and only if the values in force say so |
| ServiceSteps.CreationAccepts | internal/service/users.go:44-106 | Granted if and only if the request is complete, plan and inbounds exist, id, email and reference are free and nothing fails; otherwise nothing changes; the errors |
| ServiceSteps.ServedExactly | internal/store/assignments.go:109-133 | A row is desired if and only if it is live and its user active, and otherwise up for removal |
| ServiceSteps.ReplacementMeans | internal/store/assignments.go:90-107 | After a replacement an inbound is live if and only if it is listed and was not tombstoned; other users keep their rows; repeating it changes nothing |
| ServiceSteps.UntoldNodesUnaffected | internal/service/users.go:382-397 | A node a replacement does not trigger keeps its desired and removal sets |
| Billing.BillingService.Process | internal/service/billing.go:83-123 | Database, answer and triggered nodes are those of `Processed` for every delivery; references stay unique |
| Billing.BillingService.Execute | internal/service/billing.go:106-122 | The five actions on a recorded event |
| Billing.BillingService.ProvisionUser | internal/service/billing.go:125-149 | Returns the holder of the external reference as it is, or creates it |
| Billing.BillingService.RunOn | internal/service/billing.go:151-184 | Renew, suspend, resume and cancel of a resolved user |
| Billing.BillingService.ResolveUser | internal/service/billing.go:186-203 | The unique user of the external reference, or of the email if there is no reference; the errors in order |
| Billing.ResolvesNamed | internal/service/billing.go:186-203 | Answers a user if and only if the event names that user; not found if and only if it names nobody; invalid if and only if it gives no reference |
| Billing.EventTable.RecordWebhookEvent | internal/store/webhooks.go:7-22 | True if and only if the id was not on record; on record afterwards |
| Billing.ProcessKeepsUnique | internal/store/migrations/0002_billing.sql:4-4 | No delivery makes two users share an email or external reference |
| WebhookStreams.WebhookIsRequest | internal/service/billing.go:83-123 | Apart from recording its id a delivery does what one API request does, or nothing |
| WebhookStreams.ReplaysErase | internal/service/billing.go:97-104 | Over every stream mixed with requests, sweeps, deletions and arbitrary changes to assignments, striking out every later well-formed delivery of a recorded id leaves the same database, also when the first execution failed |
| WebhookStreams.ExecutedAtMostOnce | internal/store/webhooks.go:10-22 | What remains records no id twice and none that was on record |
| WebhookStreams.EventsAreSeen | internal/service/billing.go:97-100 | The ids on record are the initial ones and those of accepted deliveries |
| WebhookStreams.RetryAfterError | internal/service/billing.go:97-121 | A retry after an error is swallowed as a duplicate if and only if the failed attempt had recorded the id; otherwise it is processed as if nothing had happened |
| WebhookStreams.LostRenewal | internal/service/billing.go:151-164 | For every user with a reference: a renewal whose update fails is lost to the retry |
| WebhookStreams.OneAccountPerReference | internal/store/migrations/0002_billing.sql:1-4 | Over every stream no two users share an email or external reference |
| WebhookStreams.IdentityKept | internal/store/users.go:135-144 | Over every stream a user not deleted keeps id, email and external reference |
| WebhookStreams.ProvisionMakesHolder | internal/service/billing.go:125-149 | A successful provision leaves a holder of the reference and answers with its record |
| WebhookStreams.ProvisionMeans | internal/service/billing.go:139-148 | A provision for a new reference makes the record of its payload, column by column, assigns its inbounds, answers the record and wakes the user's nodes |
| WebhookStreams.ProvisionOnce | internal/service/billing.go:132-138 | After one success and any stream that does not delete the user, a provision under a new event id returns that user, changes no user and no assignment and wakes no node |
| WebhookStreams.ActionMeans | internal/service/billing.go:106-122 | A first delivery that names a user does to the users what the operation on that user does, touches no assignment, answers its outcome and wakes that user if and only if it succeeded |
| WebhookStreams.NobodyNamed | internal/service/billing.go:186-203 | A first delivery that names nobody is refused and only its id is recorded |
| WebhookStreams.CancelTakesOut | internal/service/billing.go:166-175 | An answered suspend or cancel disables exactly the user it names and wakes its nodes; after every stream that does not revive the user no node desires it and all its assignments are up for removal |
| WebhookStreams.CancelledUntilResumed | internal/service/billing.go:166-175 | Over every stream a disabled user stays disabled until resumed, reinstated or deleted |
| RateLimiter.IpLimiter.Allow | internal/httpapi/ratelimit.go:41-54 | Table and answer are those of the specification, including a bucket pruned under its own request |
| RateLimiter.IpLimiter.PruneLocked | internal/httpapi/ratelimit.go:56-63 | Deletes exactly the buckets idle for more than ten minutes |
| RateLimiter.NewIpLimiter | internal/httpapi/ratelimit.go:30-39 | No limiter exactly for a rate that is not positive |
| RateLimiter.PruningIsInvisible | internal/httpapi/ratelimit.go:26-63 | After any requests of any clients the answer is that of one bucket fed with this client's requests and never dropped |
| RateLimiter.TableMirrors | internal/httpapi/ratelimit.go:41-63 | A kept bucket is the reference one; a dropped one has refilled |
| RateLimiter.TokensAccounted | internal/httpapi/ratelimit.go:30-54 | Granted tokens plus the level never exceed the earlier level plus the inflow |
| RateLimiter.WindowBound | internal/httpapi/ratelimit.go:30-54 | In any window a client is granted at most perMinute plus perMinute per minute of the window, across any prunes |
| RateLimiter.LevelIsDrained | internal/httpapi/ratelimit.go:30-54 | Unless it is full, the level is exactly what the tightest window leaves of its allowance |
| RateLimiter.RefusedExactly | internal/httpapi/ratelimit.go:41-54 | A request is refused if and only if for the window starting with some earlier request granting it would exceed perMinute plus perMinute per minute of that window |
| RateLimiter.BurstGranted | internal/httpapi/ratelimit.go:28-30 | The first perMinute requests of any client are granted |
| RateLimiter.StampsAreLatest | internal/httpapi/ratelimit.go:49-49 | A kept bucket carries the instant of its client's latest request |
| RateLimiter.TableBounded | internal/httpapi/ratelimit.go:50-63 | Whenever the table holds more than ten thousand clients, each of them asked within the ten minutes before the pruning instant of the latest request |

## Left out

- Deleting inbounds, changing tags and node CRUD: they leave entries behind the same way a deleted user does.
- Account contents (UUID, password, flow): an "already exists" answer counts as success, so only membership converges.
- Replacing the actor of a single node (StartNode, StopNode), its overlap with the old one, and the buffer a stopped actor discards: one actor per node is modelled, and all restart together.
- A trigger for a node without an actor: every node has one in the protocol.
- Deletion of users in the metering model, whose snapshots go with them.
- The final re-read of the user in a service request, which is taken to succeed.
- An error reported by the database after it has committed: a statement or transaction that fails changes nothing.
- Reconciler.NodeActor.Reconcile: assumes that nobody else writes the store during the pass; the state machine has the interleavings.
- Interleaving inside one service request in `UserService` and `Billing`, which run a request at a time; the protocol and the lemmas on late writes have the interleavings.
- Time zones and calendar effects of AddDate: a day is 24 hours, and a report's day is a UTC day number.
- The order of report rows and of SQL results.
- 64-bit and 32-bit overflow of byte counters and uptimes, and floating-point rounding in the limiter.
- RateLimiter.PruningIsInvisible: assumes that clocks do not run backwards and that no request spends more than nine minutes inside the lock.
- Unicode white space in the email check: space, tab, newline and carriage return are blank.
- A JSON null as opposed to an empty inbound list in SetInbounds.
- Subscription links, the values of subscription tokens, HMAC signatures, API keys, HTTP routing, TLS, metrics and configuration: plumbing or cryptography.
