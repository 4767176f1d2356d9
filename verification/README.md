# Jamsesh: models and proofs

Dafny models of the concurrent and crash-prone parts of jamsesh, with proofs over
every interleaving, every run and every crash point. `dafny verify dfyconfig.toml`
checks the whole project.

The components, by module:

- **Browser subscription manager**: `WsClient` (one session's callbacks as functions),
  `WsSession` (that client with its sockets, the portal's gateway and the event log as a
  state machine), `WsSafety`, `WsOneSocket`, `WsRuns`, `WsResume`, `WsDelivery`,
  `WsWitnesses`, `WsGapWitness`, `WsBackoff`, and `SubscriptionManager`, the module's maps as a class whose methods
  are proved against `WsClient`.
- **Event sequence numbers and the digest cursor**: `EventLog` (interleaved
  transactions), `EventStore` (the tables as a class), `DigestCursor`.
- **Keyset paging**: `KeysetPaging`.
- **Local credentials**: `CredentialStore` (the data directory, with every intermediate
  file state kept in a history), `TokenMigration`, `TokenRefresh`.
- **Push retry pipeline**: `PushErrors`, `PushRetry`, `RetryPipeline`.
- **finalize-run**: `CleanupStack`, `FinalizeRun`, `HereDoc`.
- **Finalize locks and single-use rows**: `LockRows` (the table and its statements),
  `FinalizeLocks` (the portal's handlers as interleaved reads and writes),
  `FinalizeLockRuns`, `FinalizeLockWitnesses`, `SingleUseRows`.
- **Browser auth store** and **device-code polling**: `AuthStore`, `DevicePolling`.

Network replies, clocks, random numbers, failing file operations, git's exit codes and
the scheduler are parameters or actions, so each theorem ranges over all of them. A
concurrent program is a state machine: `Enabled` says what can happen, `Step` what it
does, `Feasible` and `After` lift both to runs.

## What does not hold, and exactly when it does

Where a promise of the code or of its comments fails, the code is modelled as it is, a
lemma exhibits a run or an input, and another gives the exact condition.

- One live socket per session fails exactly when the record, while it has a live socket,
  meets another socket's close event, a failing reopen ticket, a granted reopen ticket of
  its own, or a reconnect timer without a bearer (`WsOneSocket.OneLiveStep`,
  `WsRuns.OneSocketPerSession`). One live socket and a single reconnect loop together fail
  exactly when the close event of a torn-down socket reaches a record that has a socket or
  a reconnect timer, or starts a second loop beside its reopen, or when the failing ticket
  of an older record's reopen reaches a record that has a socket or a reconnect timer
  (`WsOneSocket.SoleStep`, `WsRuns.OneSocketAndLoop`, `WsWitnesses.StaleCloseWitness`,
  `WsWitnesses.StaleReopenFailureWitness`).
- "A lingering record always means open or reconnecting"
  (frontend/src/lib/ws.svelte.ts:326-329) fails when a reopen's ticket arrives between
  the last unsubscribe and the next subscribe. Only leaving, or a callback that belongs
  to another record, frees the record then (`WsOneSocket.OwnedStep`,
  `WsRuns.WedgedForGood`, `WsWitnesses.WedgeWitness`).
- What a listener receives has a gap exactly when a frame reaches it beyond the event
  before its first or after its last (`WsDelivery.OnePieceEveryRun`). Without stale
  callbacks only two kinds of connection do that: one whose replay did not meet the live
  feed, because more than 1000 events were missed or the gateway did not honour the frame,
  and one on which the fan-out dropped or overtook an event
  (`WsDelivery.ContiguousDelivery`, `WsGapWitness.SkippedWitness`,
  `WsGapWitness.DroppedWitness`). A skipped event whose fan-out is over is never delivered
  later (`WsResume.SkippedForGood`).
- The /api/me guard against a second load breaks exactly when an older load ends while a
  newer one for the current token is in flight, or when a sign-in, a sign-in without
  a refresh token or a sign-out returns to a token for which a load that later callers will
  not join is in flight
  (`AuthStore.GuardedStep`, `AuthStore.DoubleLoadWitness`).
- A sign-in over a cached user shows the previous account's user and orgs under the new
  token (`AuthStore.ConsistentStep`, `AuthStore.StaleUserWitness`).
- "Release should never blast a different active holder's pointer"
  (internal/portal/finalize/lock_release.go:110-113) fails when the clear lands after
  another acquire (`FinalizeLockRuns.PointerStep`,
  `FinalizeLockWitnesses.LateClearWitness`).
- The stale takeover closes its time-of-check window, the idle branch of the patch
  handler does not: it releases a lock that another patch refreshed since it was read
  (`FinalizeLockRuns.StaleTakeoverOnlyIdle`, `FinalizeLockRuns.IdlePatchOvertakesRefresh`,
  `FinalizeLockWitnesses.RefreshedReleaseWitness`).
- A lock's superseded mark is overwritten exactly when a second override that read the
  same lock commits after the first one's lock has ended (`FinalizeLockRuns.MarkStep`,
  `FinalizeLockWitnesses.RemarkWitness`).
- A shipped or abandoned session becomes finalizing again exactly when a handler that had
  loaded it as active writes afterwards: an acquire that commits, or the session handler's
  finalize, whose status update has no guard (`FinalizeLockRuns.EndedSessionStaysEnded`,
  `FinalizeLockWitnesses.ResurrectWitness`, `FinalizeLockWitnesses.LateFinalizeWitness`,
  `FinalizeLockWitnesses.AbandonedThenFinalizedWitness`).
- A retry after a refresh reads the stale token when a client without a session id runs
  where a session is bound (`TokenRefresh.RetryReadsNewToken`,
  `TokenRefresh.BoundUnscopedWitness`).
- Preflight leaves its stash behind exactly when the origin is unreachable after
  stashing (`FinalizeRun.Repo.RunPreflight`).
- The https remote stays exactly when the stack was drained before the remote's cleanup
  was pushed, or the process exits before the watcher's loop reached that cleanup; nobody
  waits for the watcher (`FinalizeRun.Finalize`, `FinalizeRun.RemoteLeftWitness`).
- `pushCommitWithRetry` with five or more attempts indexes past its backoffs after four
  transient failures, and with none reports success without pushing
  (`PushRetry.PushCommitWithRetry`).
- Code and documentation disagree in two more places, and the model follows the code:
  statuses 1xx and 3xx are Permanent although only 4xx is documented
  (cmd/jamsesh/pusherr/classify.go:49-89), and the terminator search needs 15901 bytes to
  fail, not 6 KB (cmd/jamsesh/finalizecmd/script.go:68-86).

## Model

| member | source | states |
|---|---|---|
| WsRuns.StatusAndTeardownAlways | frontend/src/lib/ws.svelte.ts:83-89 | In every reachable state, with no premise, the status map shows exactly the sessions with a record and its status, and a record without handlers has its teardown timer pending. |
| WsRuns.SocketsOnlyForListeners | frontend/src/lib/ws.svelte.ts:317-365 | No step of any state constructs a socket for a session without handlers. |
| WsRuns.OneSocketPerSession | frontend/src/lib/ws.svelte.ts:180-369 | Over every run from the start: the only live socket is the record's throughout, if and only if no step orphans one. |
| WsOneSocket.OneLiveStep | frontend/src/lib/ws.svelte.ts:180-369 | The same for one step: a step orphans a socket exactly when the record has a live one and meets another socket's close, a failing reopen, a granted reopen of its own, or a timer without a bearer. |
| WsRuns.OneReopenPerRecord | frontend/src/lib/ws.svelte.ts:289-323 | Over every run: each record has at most one reopen in flight throughout, if and only if no reconnect timer fires with a bearer while a reopen of the record is in flight. |
| WsOneSocket.OneReopenStep | frontend/src/lib/ws.svelte.ts:289-323 | The same for one step. |
| WsRuns.SoleOrphansNothing | frontend/src/lib/ws.svelte.ts:180-369 | A run without stale callbacks orphans no socket and doubles no reopen. |
| WsRuns.OneSocketAndLoop | frontend/src/lib/ws.svelte.ts:180-369 | Over every run: the only live socket is the record's, the loop is single and each record has at most one reopen in flight, throughout, if and only if no stale close and no stale reopen failure occurs. |
| WsOneSocket.SoleStep | frontend/src/lib/ws.svelte.ts:267-323 | One step keeps the single socket and the single loop if and only if it is not one of the two stale callbacks, described on the state before it. |
| WsOneSocket.StaleCloseBreaks | frontend/src/lib/ws.svelte.ts:267-286 | Every stale close does break it. |
| WsRuns.LoopOwnsRecordAlways | frontend/src/lib/ws.svelte.ts:325-331 | Over every run without stale callbacks: a record is open or reconnecting throughout, if and only if no reopen ticket arrives while nobody listens. |
| WsOneSocket.OwnedStep | frontend/src/lib/ws.svelte.ts:305-331 | The same for one step, with the exact failing callback. |
| WsRuns.WedgedForGood | frontend/src/lib/ws.svelte.ts:325-331 | Over every run: a record without a socket, reconnect timer or reopen of its own stays so, if and only if no freeing callback happens (close, teardown without listeners, any socket's close event, another record's timer or failing reopen); without a live socket it then receives nothing. |
| WsRuns.StuckStep | frontend/src/lib/ws.svelte.ts:219-331 | The same for one step, with the exact list of freeing callbacks. |
| WsRuns.OnlyLeavingFrees | frontend/src/lib/ws.svelte.ts:404-416 | With no timer, ticket or closing socket pending, only the callers free it, by leaving. |
| WsWitnesses.WedgeWitness | frontend/src/lib/ws.svelte.ts:313-331 | A run from the initial state, free of stale callbacks, that ends stuck with listeners waiting and nothing pending. |
| WsWitnesses.StaleCloseWitness | frontend/src/lib/ws.svelte.ts:267-275 | A run in which only a stale close happens and a live socket is left that no record knows. |
| WsWitnesses.StaleReopenFailureWitness | frontend/src/lib/ws.svelte.ts:305-311 | A run in which only a stale reopen failure happens and a live socket is left that no record knows. |
| WsSafety.TidyStep | frontend/src/lib/ws.svelte.ts:180-417 | Every callback keeps the status mirror, the agreement of timers and records, and the pending teardown. |
| WsDelivery.OnePieceEveryRun | frontend/src/lib/ws.svelte.ts:236-264 | Over every run, stale callbacks, drops and reordering included: what a record's listener received stays one interval ending at its cursor, if and only if no frame reaches it beyond the event before its first or after its last. |
| WsDelivery.PieceStep | frontend/src/lib/ws.svelte.ts:236-264 | The same for one step of any kind. |
| WsDelivery.ContiguousDelivery | frontend/src/lib/ws.svelte.ts:236-264 | Over any number of reconnects without stale callbacks and any fan-out: what each listener received is one interval ending at its cursor throughout, if and only if no connection whose replay did not meet the live feed, or on which an event was dropped or overtaken, delivers a frame beyond the interval's ends; every other connection's frames adjoin. |
| WsDelivery.TrackedStep | internal/portal/wsgateway/gateway.go:201-262 | The same for one step. |
| WsDelivery.UnbridgedLosesNothing | internal/portal/wsgateway/gateway.go:201-262 | A short replay or a dropped event loses nothing yet: what every listener has received stays in one piece across the step. |
| WsResume.ContiguousGrows | frontend/src/lib/ws.svelte.ts:236-243 | Receiving an event keeps the interval in one piece exactly when it lies in it or next to it. |
| WsResume.GapFreeResume | frontend/src/lib/ws.svelte.ts:236-264 | If every replay meets the live feed and the fan-out keeps its order, the received seqs are contiguous; and every connection stays positioned to continue them if and only if both hold. |
| WsResume.GapFreeStep | internal/portal/wsgateway/gateway.go:201-262 | One step keeps that if and only if it is neither an answer that leaves cursor and live feed apart nor an overtaken event. |
| WsResume.CursorNeverRetreats | frontend/src/lib/ws.svelte.ts:234-243 | No run, stale callbacks included, moves any record's cursor back. |
| WsResume.SkippedForGood | frontend/src/lib/ws.svelte.ts:257-264 | An event a record's cursor has passed unseen, that no open connection will bring and whose fan-out is over before a later connection registers, is delivered to it by no later run, stale callbacks included. |
| WsResume.ShortReplaySkips | internal/portal/wsgateway/gateway.go:201-262 | After a replay that falls short, the first live frame skips the event after the cursor. |
| WsGapWitness.SkippedWitness | internal/portal/wsgateway/gateway.go:201-262 | A run from the initial state after which a listener has received 1 and 3 and never will receive 2. |
| WsGapWitness.DroppedWitness | internal/portal/events/log.go:137-153 | A run on one connection whose listener receives 1 and 3 because the fan-out dropped 2. |
| WsBackoff.BaseReachesCap | frontend/src/lib/ws.svelte.ts:43-48 | The backoff base never decreases and equals the 30 s cap exactly from attempt 8 on. |
| WsBackoff.DelayWithinQuarter | frontend/src/lib/ws.svelte.ts:127-131 | The delay is within a quarter of the base for every random number, and equals it at one half. |
| SubscriptionManager.Manager.Subscribe | frontend/src/lib/ws.svelte.ts:385-402 | On the shared maps: the session's view becomes the specified one, no other session moves, the invariant holds for all. |
| SubscriptionManager.Manager.Unsubscribe | frontend/src/lib/ws.svelte.ts:404-416 | Likewise for the closure subscribe returns, on the registry it captured. |
| SubscriptionManager.Manager.Close | frontend/src/lib/ws.svelte.ts:427-435 | Likewise for close, which also hands back the socket to close. |
| SubscriptionManager.Manager.Teardown | frontend/src/lib/ws.svelte.ts:180-197 | Likewise for teardown. |
| SubscriptionManager.Manager.ScheduleTeardown | frontend/src/lib/ws.svelte.ts:211-223 | Likewise; at most one teardown timer is pending per record. |
| SubscriptionManager.Manager.TeardownFires | frontend/src/lib/ws.svelte.ts:219-222 | Likewise for the timer callback. |
| SubscriptionManager.Manager.OpenResume | frontend/src/lib/ws.svelte.ts:340-368 | Likewise for open after its ticket arrives. |
| SubscriptionManager.Manager.ReopenResume | frontend/src/lib/ws.svelte.ts:305-322 | Likewise for reopen after its ticket arrives. |
| SubscriptionManager.Manager.ReconnectFires | frontend/src/lib/ws.svelte.ts:281-303 | Likewise for the reconnect timer and the start of reopen. |
| SubscriptionManager.Manager.OnOpen | frontend/src/lib/ws.svelte.ts:251-265 | Likewise, and the replay request carries the cursor, none at zero. |
| SubscriptionManager.Manager.OnMessage | frontend/src/lib/ws.svelte.ts:226-249 | Likewise, and exactly the handlers of the type are called. |
| SubscriptionManager.Manager.OnClose | frontend/src/lib/ws.svelte.ts:267-286 | Likewise for the close listener. |
| SubscriptionManager.Manager.HandlerCount | frontend/src/lib/ws.svelte.ts:163-169 | The count is zero exactly when nobody listens. |
| SubscriptionManager.Manager.StatusFor | frontend/src/lib/ws.svelte.ts:77-81 | The status shown is the record's, and there is one exactly when there is a record. |
| EventLog.SeqsGaplessAlways | internal/portal/events/log.go:156-221 | Under any interleaving of emitting transactions, in every reachable state: a session's committed blocks tile 1..next and the seqs of its visible events are exactly 1..next: no gap, no duplicate, rolled-back transactions included. |
| EventLog.GaplessStep | internal/db/pgstore/events.sql.go:13-76 | Every statement of every transaction keeps that. |
| EventLog.TilesPartition | internal/db/pgstore/events.sql.go:13-43 | Each number of 1..next lies in exactly one allocated block. |
| EventLog.CommitsInOrder | internal/db/pgstore/events.sql.go:13-43 | A commit makes visible only numbers above every visible one: readers see events in seq order. |
| EventStore.ListSince | internal/db/pgstore/events.sql.go:78-134 | The ascending rows past the cursor of the given types, cut at the limit, and all of them when fewer. |
| EventStore.ReplayIsContiguous | internal/db/pgstore/events.sql.go:78-84 | On a gapless log the replay past a cursor is the interval cursor+1 .. min(next, cursor+limit). |
| EventStore.Store.EnsureEventSeqRow | internal/db/pgstore/events.sql.go:40-48 | Ensuring the row never resets a counter. |
| EventStore.Store.AllocateNextSeqN | internal/db/pgstore/events.sql.go:24-38 | The counter advances by n and the last of the new numbers is returned; without a row nothing changes. |
| EventStore.Store.InsertDrafts | internal/portal/events/log.go:186-200 | The loop adds exactly the drafts under consecutive numbers, or stops at the first failing insert. |
| EventStore.Store.EmitBatch | internal/portal/events/log.go:239-256 | The drafts get the next numbers in order and the log stays exactly 1..next; any failing statement rolls back events and numbers. |
| DigestCursor.NextCursor | internal/portal/sessions/state.go:186-192 | The loop returns the largest listed seq, or the old cursor when the list is empty. |
| DigestCursor.PromptHook.FetchDigest | cmd/jamsesh/hooks/userpromptsubmit.go:225-262 | What is shown and what the cursor file holds afterwards, for every fetch and write failure and a corrupt file. |
| DigestCursor.DigestNeverSkips | cmd/jamsesh/hooks/userpromptsubmit.go:73-93 | Over any mix of new events, failed fetches, failed writes and corrupt files, no digest event at or below the persisted cursor was never shown. |
| DigestCursor.HookCatchesUp | internal/portal/sessions/state.go:176-192 | After a hook run that gets through with at most 500 digest events pending, every digest event of the log has been shown. |
| DigestCursor.VisibleInOrderNeeded | internal/db/pgstore/events.sql.go:120-134 | An event that becomes visible late is skipped exactly when it is a digest event below the cursor. |
| KeysetPaging.PagePromises | internal/portal/sessions/listing.go:91-121 | A page is strictly descending, holds only matching rows, is complete when it has no next cursor, and leaves out only rows below its cursor. |
| KeysetPaging.ChainDescends | internal/db/pgstore/sessions.sql.go:282-290 | Chained pages are strictly descending without duplicates, whatever writers do between them. |
| KeysetPaging.ChainComplete | internal/db/pgstore/comments.sql.go:96-110 | A finished chain contains every matching row present throughout. |
| KeysetPaging.ChainSound | internal/db/pgstore/comments.sql.go:96-110 | Every row of the chain was in the table of some page. |
| KeysetPaging.ChainIsFullListing | internal/db/pgstore/sessions.sql.go:282-290 | Without writers the chain equals the fully sorted listing. |
| KeysetPaging.ChainFinishes | internal/portal/sessions/listing.go:91-121 | Without writers the chain is finished after one page per `limit` rows, and one more. |
| CredentialStore.DataDir.Write | cmd/jamsesh/state/state.go:108-150 | At every intermediate state, failures included, the file has its old content or the new one and no other file moves; the result says which. |
| CredentialStore.DataDir.WriteSessionToken | cmd/jamsesh/state/state.go:218-231 | The same for a session's token file. |
| CredentialStore.DataDir.ListSessions | cmd/jamsesh/state/state.go:235-255 | The listing holds exactly the session directories. |
| CredentialStore.DataDir.CurrentSessionID | cmd/jamsesh/state/state.go:264-295 | A session is returned only if this instance is bound to it, and none only if it is bound to none. |
| TokenMigration.Migrate | cmd/jamsesh/state/migrate.go:40-90 | Every intermediate state is crash-safe: each listed session reads the same bearer as before, readable session tokens are untouched, the stub is there only when all have tokens; a run without failures makes the next one a no-op. |
| TokenMigration.FanOut | cmd/jamsesh/state/migrate.go:66-81 | The loop's part of that: only sessions without a readable token change, they get the legacy token, and without failures all have one. |
| TokenMigration.UnlistedSessionsReadStub | cmd/jamsesh/state/migrate.go:83-89 | A session outside the listing reads the stub afterwards: the promise does not extend to it. |
| TokenRefresh.Refresher.Refresh | cmd/jamsesh/portalclient/refresh.go:67-146 | At every intermediate state a new access token on disk implies its refresh token is on disk; on success both are and nothing else moved. |
| TokenRefresh.RetryReadsNewToken | cmd/jamsesh/state/state.go:203-211 | After a successful refresh the retry reads the new token if and only if the client is scoped to a session, or none is bound, or the legacy token happens to be the new one. |
| TokenRefresh.BoundUnscopedWitness | cmd/jamsesh/portalclient/refresh.go:117-143 | A data directory before and after a successful refresh in which the retry reads the stale token. |
| TokenRefresh.Do | cmd/jamsesh/portalclient/client.go:66-135 | At most two requests; the second only after a 401 and a refresh, without the body, and with the bearer then on disk; a second 401 and a failing transport are reported as such, and exactly then. |
| PushErrors.StatusRoundTrip | cmd/jamsesh/hooks/userpromptsubmit.go:142-155 | The status is read back from any output whose first "error: " mark is followed by that number. |
| PushErrors.ClassMeans | cmd/jamsesh/pusherr/classify.go:49-89 | OK exactly for exit code 0 or a 2xx in the output; Transient exactly for no status or 5xx; Permanent exactly for the rest. |
| PushErrors.StatusComesFromMark | cmd/jamsesh/hooks/userpromptsubmit.go:142-155 | Conversely, any status read is the number in the first field after the output's first mark, and lies in 100..599. |
| PushRetry.PushCommitWithRetry | cmd/jamsesh/hooks/userpromptsubmit.go:98-137 | Stops at the first OK or Permanent push, Transient only after exactly maxAttempts transient ones, panics exactly for five or more attempts and four transient pushes, and reports OK without pushing for none. |
| PushRetry.FinalClassSettles | cmd/jamsesh/hooks/userpromptsubmit.go:98-137 | The class of a retry loop is that of the first push that is not transient. |
| RetryPipeline.QueueConservation | cmd/jamsesh/hooks/userpromptsubmit.go:193-223 | Over any sequence of hook runs, with any push results and failing file operations: every commit ever handed over is in exactly one of queue, pushed, dropped and reported lost; the queue is FIFO; attempts are 3 plus drains survived. |
| RetryPipeline.SurvivorsAre | cmd/jamsesh/hooks/userpromptsubmit.go:193-223 | A drain's survivors are exactly the transient, re-saved entries, one attempt older, in order. |
| RetryPipeline.TwoLoopsAreOnePass | cmd/jamsesh/hooks/userpromptsubmit.go:193-223 | Pushing all and then re-enqueueing the failures leaves the same queue as deciding each entry in one pass. |
| RetryPipeline.ProduceHook | cmd/jamsesh/hooks/posttooluse.go:78-104 | The hook's effect on the file is the ledger's produce step, and it enqueues exactly on a transient final class; the session counts as wedged exactly when the size can be read and exceeds ten. |
| RetryPipeline.DrainHook | cmd/jamsesh/hooks/userpromptsubmit.go:193-223 | The hook's effect on the file is the ledger's drain step, with each entry's verdict the class of its own three-attempt push. |
| RetryPipeline.Queue.Load | cmd/jamsesh/retryqueue/queue.go:47-64 | The entries, an empty queue for a missing file, an error for an unreadable or undecodable one. |
| RetryPipeline.Queue.Save | cmd/jamsesh/retryqueue/queue.go:68-114 | Temp file and rename: every intermediate state of the file is the old or the new content, and the result says which. |
| RetryPipeline.Queue.Enqueue | cmd/jamsesh/retryqueue/queue.go:117-124 | The entry is appended, or nothing changes. |
| RetryPipeline.Queue.Drain | cmd/jamsesh/retryqueue/queue.go:129-138 | All entries are returned and the queue is empty exactly when the file can be read, decoded and written; otherwise nothing changes. |
| CleanupStack.FirstRunWins | cmd/jamsesh/finalizecmd/cleanup.go:87-163 | In every interleaving of pushes and drains by two goroutines, the executed tasks are a prefix of the reversed list of those pushed before the first drain, filtered by its outcome; later pushes and drains have no effect. |
| CleanupStack.DrainedAtMostOnce | cmd/jamsesh/finalizecmd/cleanup.go:125-163 | A drain runs a due task exactly as often as it was pushed, and any other never; on success all are due, otherwise the unconditional ones. |
| CleanupStack.Stack.Push | cmd/jamsesh/finalizecmd/cleanup.go:104-117 | A pushed cleanup goes on top, or is ignored once the stack is drained. |
| CleanupStack.Stack.Run | cmd/jamsesh/finalizecmd/cleanup.go:125-163 | The backwards loop executes the due tasks last pushed first, once; a second run executes none. |
| FinalizeRun.Finalize | cmd/jamsesh/finalizecmd/finalizerun.go:101-198 | Success or decline that no interrupt disturbs ends on the original branch with the original stash list and changes, popped on that branch; every other end after preflight keeps our stash on top; the https remote is left exactly when the stack was drained before its cleanup was pushed or the process exits before the watcher's loop reached it, for every schedule of the watcher's turns. |
| FinalizeRun.RemoteLeftWitness | cmd/jamsesh/finalizecmd/cleanup.go:125-163 | A successful run, interrupted after its last step, that leaves the remote although its cleanup was pushed in time. |
| FinalizeRun.SourceTurns | cmd/jamsesh/finalizecmd/cleanup.go:147-158 | The first turn of an aborting drain performs the fetch source's cleanup, and no later turn does anything. |
| FinalizeRun.Repo.Watch | cmd/jamsesh/finalizecmd/cleanup.go:87-163 | Lock and loop turns of the watcher at one point of the main goroutine. |
| FinalizeRun.SuccessRestores | cmd/jamsesh/finalizecmd/finalizerun.go:120-150 | Draining the registered tasks on success restores branch and stash list from any state execution can leave. |
| FinalizeRun.AbortedDrains | cmd/jamsesh/finalizecmd/finalizerun.go:120-150 | Draining them on abort performs the fetch source's cleanup and nothing else. |
| FinalizeRun.Repo.RunPreflight | cmd/jamsesh/finalizecmd/preflight.go:32-105 | The repository after preflight in every outcome; a failed preflight changes it exactly when the last check failed after stashing. |
| FinalizeRun.Repo.ChooseFetchSource | cmd/jamsesh/finalizecmd/fetchsource.go:60-100 | A local source changes nothing; the https source replaces the remote and comes with the cleanup that removes it; a failure adds none. |
| FinalizeRun.Repo.Execute | cmd/jamsesh/finalizecmd/execute.go:69-110 | What every exit leaves of branch, working tree, stash and remotes; a failure before the branch exists changes nothing. |
| HereDoc.PrintSquashBody | cmd/jamsesh/finalizecmd/script.go:42-59 | For every message: the shell reads the printed document back as the message with a final newline and goes on right after it; no terminator is found only for messages of at least 15901 bytes. |
| HereDoc.RoundTrip | cmd/jamsesh/finalizecmd/script.go:42-59 | For every message and every non-empty one-line delimiter: the document is read back by the POSIX rule as the message, if and only if the delimiter is no line of it. |
| HereDoc.PickHeredocTerminator | cmd/jamsesh/finalizecmd/script.go:74-86 | The first of the 1001 candidates that is no line of the body; none exactly when all are lines. |
| HereDoc.ContainsStandaloneLine | cmd/jamsesh/finalizecmd/script.go:90-97 | True exactly when the sentinel is a line of the body. |
| HereDoc.SearchFailsOnlyOnLargeMessages | cmd/jamsesh/finalizecmd/script.go:68-86 | A message that defeats the search has at least 1001 lines and 15901 bytes. |
| HereDoc.BoundIsTight | cmd/jamsesh/finalizecmd/script.go:68-86 | A message of exactly 15901 bytes defeats it. |
| LockRows.InsertRefused | internal/db/migrations/postgres/00015_finalize_locks_unique_active.sql:9-11 | An insert is refused exactly when the id is taken or the session has an active lock. |
| LockRows.OnlyInsertsRefused | internal/db/pgstore/finalize_locks.sql.go:123-202 | With non-null arguments no update ever violates the index. |
| LockRows.EndedForGood | internal/db/pgstore/finalize_locks.sql.go:123-176 | Over any sequence of statements with non-null supersede arguments, a lock that left the active set never re-enters it. |
| LockRows.EndedRowStep | internal/db/pgstore/finalize_locks.sql.go:161-176 | A row becomes active again exactly when a null supersede hits a superseded, unreleased one. |
| LockRows.NullSupersedeWitness | internal/db/pgstore/finalize_locks.sql.go:161-165 | A null supersede does bring a lock back. |
| LockRows.StaleReleaseSeesLatest | internal/db/pgstore/finalize_locks.sql.go:139-159 | After any sequence of statements a stale release takes effect exactly when the lock is unreleased and the activity set by the last effective write is older than the cutoff. |
| LockRows.ActivityIsLatest | internal/db/pgstore/finalize_locks.sql.go:177-202 | A row's activity is the one the last effective insert or touch gave it. |
| LockRows.Table.InsertFinalizeLock | internal/db/pgstore/finalize_locks.sql.go:79-121 | The row is added, or the unique violation reported and nothing changed. |
| LockRows.Table.ReleaseFinalizeLock | internal/db/pgstore/finalize_locks.sql.go:123-137 | An unreleased row is stamped; a released one keeps its stamp. |
| LockRows.Table.ReleaseFinalizeLockIfStale | internal/db/pgstore/finalize_locks.sql.go:139-159 | The row count says whether anything changed. |
| LockRows.Table.SupersedeFinalizeLock | internal/db/pgstore/finalize_locks.sql.go:161-175 | The row is marked and inactive. |
| LockRows.Table.TouchFinalizeLock | internal/db/pgstore/finalize_locks.sql.go:177-191 | Only the activity changes. |
| FinalizeLocks.AcquireTx | internal/portal/finalize/lock_acquire.go:189-272 | The transaction wins exactly when the caller may take over on the rows as they are at the commit; a loser changes nothing. |
| FinalizeLocks.CommitsIffTakes | internal/portal/finalize/lock_acquire.go:189-294 | Commit is possible exactly when: no lock was read and none is active; the idle lock read is still active and idle; or no lock but the overridden one is active. |
| FinalizeLocks.CommitTouchesOnlySeen | internal/portal/finalize/lock_acquire.go:189-250 | A committed acquire adds one lock of the caller, ends no lock but the one it read, and leaves every other row as it was. |
| FinalizeLocks.ExpiredIsBelowCutoff | internal/portal/finalize/lock_check.go:20-25 | The handler's idle check and the statement's cutoff draw the same line. |
| FinalizeLockRuns.OneActiveLockAlways | internal/portal/finalize/lock_acquire.go:53-317 | In every interleaving of acquire, patch, release, ship, finalize and abandon handlers a session has at most one active lock. The partial unique index gives it; that an insert meets the index exactly when a lock is active is `FinalizeLocks.CommitsIffTakes`. |
| FinalizeLockRuns.EndedLockStaysEnded | internal/portal/finalize/lock_release.go:97-108 | In every run a lock that ended stays ended. |
| FinalizeLockRuns.WhoEndsALock | internal/portal/finalize/lock_acquire.go:131-161 | An active lock ends only by its holder, by shipping, or by another member who read this very lock and finds it idle at the commit or asked to override. |
| FinalizeLockRuns.StaleTakeoverOnlyIdle | internal/portal/finalize/lock_acquire.go:193-214 | A lock that a stale takeover ends was idle at the commit, whatever its holder did since the caller read it. |
| FinalizeLockRuns.IdlePatchOvertakesRefresh | internal/portal/finalize/lock_patch.go:135-147 | From a patch that reads a lock as idle to its release, over every run in between: the lock is not idle at the release if and only if another patch wrote it in between and the last such write is recent; it is released all the same. |
| FinalizeLockRuns.EndedSessionStaysEnded | internal/portal/sessions/handler.go:286-321 | Over every run: an ended session stays ended, if and only if no acquire that loaded it as active commits and no finalize that loaded it as active writes. |
| FinalizeLockRuns.EndedStep | internal/portal/finalize/mark_shipped.go:130-142 | The same for one step of any handler. |
| FinalizeLockRuns.EndedForGood | internal/portal/sessions/handler.go:299-315 | An ended session that no handler at work has loaded as active stays ended over every run, whatever acquires, finalizes and ships start later. |
| FinalizeLockRuns.MarkStep | internal/portal/finalize/lock_acquire.go:242-249 | A superseded mark changes exactly when a second override that read the lock commits later. |
| FinalizeLockRuns.PointerFollowsHolder | internal/portal/finalize/lock_release.go:110-120 | Over every run: the session points at the active lock's holder throughout, if and only if no pointer clear lands while a lock is active. |
| FinalizeLockRuns.PointerStep | internal/portal/finalize/lock_release.go:110-120 | The same for one step of any handler. |
| FinalizeLockWitnesses.LateClearWitness | internal/portal/finalize/lock_release.go:110-120 | A run from the empty table in which a release clears the pointer of the next holder. |
| FinalizeLockWitnesses.RefreshedReleaseWitness | internal/portal/finalize/lock_patch.go:137-147 | A run after which an idle patch releases a lock refreshed one nanosecond before. |
| FinalizeLockWitnesses.RemarkWitness | internal/portal/finalize/lock_acquire.go:242-249 | A run after which a second override replaces the mark of the first. |
| FinalizeLockWitnesses.ResurrectWitness | internal/portal/finalize/lock_acquire.go:260-269 | A run in which a session that was shipped becomes finalizing again by a late acquire. |
| FinalizeLockWitnesses.LateFinalizeWitness | internal/portal/sessions/handler.go:286-321 | A run in which a session that was shipped becomes finalizing again by a late finalize. |
| FinalizeLockWitnesses.AbandonedThenFinalizedWitness | internal/portal/sessions/handler.go:385-415 | The same for a session that was abandoned. |
| SingleUseRows.AtMostOneWinner | internal/db/pgstore/magic_link_tokens.sql.go:13-17 | Under any interleaving an unused token has at most one winner, if and only if the first eligible statement does not write a null before another. |
| SingleUseRows.ExactlyOneWinner | internal/db/pgstore/resume_tokens.sql.go:13-18 | With timestamps, exactly one winner when any statement is eligible (an expired resume token never is), else none. |
| SingleUseRows.OneWinnerPerToken | internal/db/pgstore/magic_link_tokens.sql.go:13-38 | From any table on, no token, whenever it is created, has two winners. |
| SingleUseRows.NonceConservation | internal/db/pgstore/oauth_state.sql.go:13-42 | Every insert of a nonce is consumed once, cleaned up once, or still there. |
| SingleUseRows.NonceConsumedAtMostOnce | internal/db/pgstore/oauth_state.sql.go:22-24 | A nonce inserted once is consumed at most once and is gone then. |
| SingleUseRows.TokenTable.ConsumeMagicLinkToken | internal/db/pgstore/magic_link_tokens.sql.go:13-30 | One affected row exactly when the token exists unused. |
| SingleUseRows.TokenTable.ConsumeResumeToken | internal/db/pgstore/resume_tokens.sql.go:13-42 | The stamped row is returned exactly when the token exists, unused and unexpired. |
| SingleUseRows.NonceTable.ConsumeOAuthState | internal/db/pgstore/oauth_state.sql.go:22-37 | The row is returned if present, and is gone afterwards. |
| AuthStore.NoStaleIdentity | frontend/src/lib/auth.svelte.ts:168-255 | Over every interleaving of sign-in, adoption, sign-out, loads and new orgs: the stored token is the one in memory, and a cached user and every cached org were obtained with it throughout, if and only if no setTokens runs over another token's cache, no kept response's request left late and no org created under another token is added. |
| AuthStore.StaleUserWitness | frontend/src/lib/auth.svelte.ts:168-173 | A run that ends with the previous account's user and orgs under the new token. |
| AuthStore.OnlyUserStopsLoads | frontend/src/lib/auth.svelte.ts:225-227 | In every run only a cached user or a load in progress stops the next load; orgs added to an empty cache do not. |
| AuthStore.ConsistentStep | frontend/src/lib/auth.svelte.ts:225-255 | The same for one step. |
| AuthStore.StoredTokenAlwaysCurrent | frontend/src/lib/auth.svelte.ts:168-197 | With no premise: in every run the stored token equals the one in memory. |
| AuthStore.SingleFlight | frontend/src/lib/auth.svelte.ts:225-253 | Over every run: later callers join the load in flight for the current token throughout, if and only if no step loses track of one. |
| AuthStore.GuardedStep | frontend/src/lib/auth.svelte.ts:225-253 | The same for one step, with the exact steps that lose track. |
| AuthStore.DoubleLoadWitness | frontend/src/lib/auth.svelte.ts:247-249 | A run with two loads of the same token in flight. |
| AuthStore.Store.SetTokens | frontend/src/lib/auth.svelte.ts:168-173 | The store moves as specified; the cache is kept. |
| AuthStore.Store.SetAccessOnly | frontend/src/lib/auth.svelte.ts:179-187 | The store moves as specified, and stays consistent. |
| AuthStore.Store.SignOut | frontend/src/lib/auth.svelte.ts:189-223 | The store is cleared, stays consistent, and the old bearer is kept for the logout call. |
| AuthStore.Store.LoadStart | frontend/src/lib/auth.svelte.ts:225-235 | A load starts only with an incomplete cache and none in progress. |
| AuthStore.Store.LoadEnd | frontend/src/lib/auth.svelte.ts:236-250 | A response is kept only under the token its load started with; consistency survives if its request carried that token. |
| AuthStore.Store.AddOrg | frontend/src/lib/auth.svelte.ts:259-262 | Keeps the cached orgs and their order; the cache stays consistent exactly when the org was created under the current token; whether the next load starts does not change. |
| DevicePolling.DeviceFlow | cmd/jamsesh/auth/device.go:65-140 | The flow ends; polls are spaced by the first interval plus 5 s per slow_down and at most one more than fit into the lifetime; local expiry is told from the portal's answers; tokens are written only on a grant. |
| DevicePolling.Poll | cmd/jamsesh/auth/device.go:86-125 | The loop makes exactly the specified polls and returns the reply that ended it. |
| DevicePolling.PollsSpaced | cmd/jamsesh/auth/device.go:91-124 | Each poll waits the initial interval plus five seconds per slow_down so far. |
| DevicePolling.PollsBounded | cmd/jamsesh/auth/device.go:75-98 | n polls imply (n - 1) intervals within the lifetime; none once expired. |
| DevicePolling.BoundAttained | cmd/jamsesh/auth/device.go:86-119 | A portal that only says pending makes the loop poll exactly that often. |
| DevicePolling.LastReplyDecides | cmd/jamsesh/auth/device.go:100-138 | Every reply but the last is a wait, and the clock ends the loop exactly when the last is too. |
| DevicePolling.Conclude | cmd/jamsesh/auth/device.go:95-138 | Which reply gives which outcome and leaves what in the two files, including a failing second write. |

## Left out

- internal/router, the auto-merger, the lease manager and the object store: not part of this model.
- internal/db/sqlitestore: the statements are twins of the modelled ones.
- internal/db/pgstore/leases.sql.go: the statements carry no guard of their own.
- HTTP, JSON, git subprocesses, prompts and browser opening: their results are parameters.
- PKCE, random state and token generation; formatting and URL helpers: easy or library facts.
- WsDelivery.ContiguousDelivery: assumes a run without stale callbacks (WsDelivery.OnePieceEveryRun does not), and says nothing about events before a record's first connection, which starts at the live feed.
- WsResume.SkippedForGood: an event whose fan-out is still under way when a later connection registers can still reach the listener through it.
- SubscriptionManager.Manager.OnMessage: the handlers are returned, not called, so a handler that unsubscribes while being called is not modelled.
- EventStore.Store.EmitBatch: one transaction at a time; interleaved transactions are in EventLog.
- KeysetPaging.PagePromises: the queries' filters (LIKE patterns, org and session columns) are one predicate `keep`.
- PushErrors.StatusRoundTrip: lower-casing and spaces are ASCII only.
- RetryPipeline.QueueConservation: hook runs are serial and do not crash between reading and writing the queue file.
- TokenMigration.Migrate: directory permission errors appear as failing reads and writes.
- TokenRefresh.Refresher.Refresh: one refresh at a time, as the singleflight group ensures.
- FinalizeRun.Finalize: git is its branch, stash list, remotes and target branch; contents of commits are not modelled, and cleanup commands succeed.
- LockRows.Table.TouchFinalizeLock: the curation columns are not modelled, only the activity a curation update writes.
- FinalizeLocks.AcquireTx: the transaction's writes to the sessions table are in the protocol's commit step; membership checks and emitted events are not modelled.
- FinalizeLockRuns.EndedSessionStaysEnded: deleting a session (archival, playground destruction) removes its row and is not modelled.
- AuthStore.Store.SignOut: navigation and the logout request itself are not modelled, nor is the playground context.
- DevicePolling.DeviceFlow: durations are unbounded integers, so the overflow of a very large interval is not modelled.
