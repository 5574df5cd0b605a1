# Verified model of the Reddit-to-Kafka streaming service

Dafny models of the coordination and durability logic of the service, with proofs of what its
documentation promises about it:

- **Leases** (`LockManager.dfy`, `LeaseProtocol.dfy`): one streaming worker per subreddit, as a timed
  protocol over Redis requests that may be answered late or never.
- **Delivery-aware checkpoints** (`DeliveryWait.dfy`, `StreamWorker.dfy`, `CheckpointSafety.dfy`,
  `WorkerRefinement.dfy`, `CheckpointFlusher.dfy`): no checkpoint, in Redis or Postgres, gets ahead of Kafka's acknowledgements.
- **The registry** (`Registry.dfy`, `RegistryRuns.dfy`, `DeadStreamCleanup.dfy`): creates, deletes,
  scripts and sweeps of many clients interleaved command by command.
- **Stopping and draining** (`StopProtocol.dfy`, `ManagerDrain.dfy`).
- **Retrying** (`ErrorHandler.dfy`, `CircuitBreaker.dfy`, `StreamLoop.dfy`).
- **Schema migrations** (`Migrations.dfy`).

Objects that update their fields are classes whose methods are proved against functions on values;
protocols whose point is the interleaving are step relations over values, one step per Redis
command, and the theorems are about every run. `dafny verify dfyconfig.toml` checks everything.

What the environment decides is a parameter: whether a request, its reply or neither arrives
(`Wire`), how each poll and await of a delivery wait goes (`Script`), what others do while a worker
awaits (`Meanwhile`), clocks, candidate ids, stamps, checksums and the ISO timestamp parser.
Assumptions: lock tokens and candidate ids (uuid4) are new;
`updated_at` stamps are distinct; clocks are monotone with one rate; sleeps never end early; and, for
the lease protocol only, sleeps and time-outs also end on time and cancelling a worker's tasks takes
no time.

## Findings

- Mutual exclusion holds exactly when the registry heartbeat, which follows each lease refresh,
  returns within 10 seconds (`LeaseProtocol.RepositoryMutualExclusion`). The worker puts no time-out
  on that call: it is bounded only by the Redis client's 5 seconds per connection attempt and socket
  operation and whatever retries it makes, which is no bound of 10 seconds on the call.
- A cancellation that arrives together with the last delivery reports ends the wait although the
  whole batch is delivered, and its checkpoint is not written
  (`DeliveryWait.CancellationOverridesDelivery`). This is the one way in which a wait is not exact
  (`DeliveryWait.NormalIffDeliveredExactlyWhen`, `StreamWorkers.CheckpointIffDeliveredExactlyWhen`).
- An unguarded status write after a deletion leaves a registry record that names no subreddit and
  that `delete_stream` will not remove (`RegistryRuns.UnguardedWriteRecreates`). Besides the metadata
  write of a creator, it is the only step that brings a record into being
  (`RegistryRuns.RecreatedExactlyBy`).
- A worker may start after a stop was requested: a first start does not look at the stop key
  (`StopProtocol.AStartMayOutliveTheRequest`), and an adoption may have looked just before
  (`StopProtocol.AnAdoptionMayOutliveTheRequest`). It stops at its watcher's first poll. No new worker
  can appear exactly when no start of either kind is past that point
  (`StopProtocol.NoNewWorkerExactlyWhen`).
- The root README speaks of flushing the producer before a checkpoint advances. The code waits for
  the worker's own delivery reports instead; the model follows the code.

## Model

| member | source | states |
|---|---|---|
| `LeaseProtocol.MutualExclusion` | apps/reddit-kafka/src/stream/worker.py:111-181 | In every run of any number of activations, with requests executed late, crashes and expiries, a streaming worker's token is the stored unexpired lease, so at most one worker streams. |
| `LeaseProtocol.MutualExclusionExact` | apps/reddit-kafka/src/stream/worker.py:100-105 | At most one worker ever streams if and only if interval + 2 * timeout + heartbeat bound < TTL; both directions, the failing one by an explicit overlapping run. |
| `LeaseProtocol.RepositoryMutualExclusion` | apps/reddit-kafka/src/stream/worker.py:456-488 | With the constants 30 s, 10 s and 60 s: exactly when the heartbeat call, which the worker does not time out, takes under 10 s. |
| `LeaseProtocol.RunKeepsInv` | apps/reddit-kafka/src/stream/worker.py:450-488 | Every reachable state keeps, per worker and phase, how far the next deadline lies from the last refresh the server executed. |
| `LeaseProtocol.Overlap` | apps/reddit-kafka/src/stream/worker.py:450-488 | Without the margin there is a run in which two workers stream at once. |
| `LeaseProtocol.FinalizedOnlyWhenNobodyStreams` | apps/reddit-kafka/src/repositories/stream_registry.py:60-75 | The script that finalizes an abandoned stop can succeed only while no worker streams. |
| `LeaseProtocol.FailoverIsImmediate` | apps/reddit-kafka/src/stream/lock.py:152-184 | The release of a worker that is over frees its lease: another activation holds it at the same moment. |
| `LeaseProtocol.GivingUpRecallsNothing` | apps/reddit-kafka/src/stream/worker.py:459-473 | A command its client timed out on or was cancelled at does to the key what it would have done before. |
| `LeaseProtocol.AnswersDecide` | apps/reddit-kafka/src/stream/worker.py:456-477 | Who acquired goes on to verify, who lost the race or the lease is over and does not stream. |
| `LeaseProtocol.RefreshesAreSpaced` | apps/reddit-kafka/src/stream/worker.py:450-454 | In every run a streaming worker sends its refresh just when the interval since its heartbeat is over. |
| `LockManager.LeaseStore.AcquireLock` | apps/reddit-kafka/src/stream/lock.py:48-91 | SET NX EX: stores the token only over an absent or expired key, also when the reply is lost; a contended acquire answers None, or raises when its look-up of the holder fails; other subreddits' keys stay. |
| `LockManager.LeaseStore.RefreshLock` | apps/reddit-kafka/src/stream/lock.py:93-132 | Extends the lease exactly when the token is the live owner, and says so; a lost request changes nothing. |
| `LockManager.LeaseStore.OwnsLock` | apps/reddit-kafka/src/stream/lock.py:134-150 | True exactly for the live owner's token. |
| `LockManager.LeaseStore.ReleaseLock` | apps/reddit-kafka/src/stream/lock.py:152-184 | Frees the key exactly when the token is the live owner and the request arrives, and leaves it as it is otherwise; also when the reply is lost. |
| `LockManager.ReleaseHandsOver` | apps/reddit-kafka/src/stream/lock.py:14-26 | After its owner's release a key is free and the next acquire holds it at once; nobody else's release or acquire changes it. |
| `LockManager.RefreshLasts` | apps/reddit-kafka/src/stream/lock.py:14-19 | A refresh lasts exactly its TTL from now, whatever the lease had left. |
| `LockManager.LostStaysLost` | apps/reddit-kafka/src/stream/lock.py:14-26 | A token that stopped holding the key is never the stored live token again, whatever anybody acquires, refreshes or releases. |
| `LockManager.HeldAfterStep` | apps/reddit-kafka/src/stream/lock.py:14-26 | Who holds the key after each further command of any history. |
| `LockManager.LostTokenIsPowerless` | apps/reddit-kafka/src/stream/lock.py:93-184 | A refresh or release with a lost token leaves key and expiry as they are. |
| `DeliveryWait.WaitIsExact` | apps/reddit-kafka/src/stream/worker.py:369-414 | A wait that starts with an open future returns normally iff it is not cancelled and every own future is delivered when it ends; a reported failure or a time-out is about an own future; no report is lost; at most |batch| + ceil(timeout / 0.05) rounds. |
| `DeliveryWait.EndsExactly` | apps/reddit-kafka/src/stream/worker.py:379-414 | What ends a wait, in which round, with which reports in: a poll it comes to raises, or returns with futures open and no time left, or an await is interrupted, or no future is open any more. |
| `DeliveryWait.PollsOften` | apps/reddit-kafka/src/stream/worker.py:392-405 | A wait that times out has polled at least every 0.05 s. |
| `DeliveryWait.CancelledExactlyWhen` | apps/reddit-kafka/src/stream/worker.py:401-405 | A wait is cancelled exactly when an await it comes to (no poll before it raised, time was left and a future open at each) is interrupted; the reports that came in during that await count. |
| `DeliveryWait.NormalIffDeliveredExactlyWhen` | apps/reddit-kafka/src/stream/worker.py:379-414 | 'Returns normally iff every own message was delivered' holds of a wait that starts with an open future exactly when no cancellation arrives together with the last reports. |
| `DeliveryWait.CancellationOverridesDelivery` | apps/reddit-kafka/src/stream/worker.py:401-405 | The input on which it fails: the last report and the cancellation meet the same await. |
| `DeliveryWait.OthersAreIrrelevant` | apps/reddit-kafka/src/stream/worker.py:369-405 | Whatever is reported about other workers' messages, verdict, rounds and own reports are the same. |
| `DeliveryWait.ReportsAreFinal` | apps/reddit-kafka/src/stream/worker.py:338-361 | The first delivery report of a message is final. |
| `DeliveryWait.FirstReportCounts` | apps/reddit-kafka/src/stream/worker.py:338-361 | Of several reports on an open future the first one counts. |
| `DeliveryWait.CountsFailures` | apps/reddit-kafka/src/stream/worker.py:408-414 | The number a failed batch reports is that of its failed messages. |
| `StreamWorkers.StreamWorker.WaitForDeliveryBatch` | apps/reddit-kafka/src/stream/worker.py:369-414 | The loop computes exactly that verdict and clears the pending list on every exit but a cancellation. |
| `StreamWorkers.StreamWorker.ProcessComment` | apps/reddit-kafka/src/stream/worker.py:236-336 | Every field, the stored checkpoint, the futures and the outcome are those of `Process`, in every branch, with others acting while the worker awaits its next comment, its reports or its checkpoint write. |
| `StreamWorkers.OutcomeExactly` | apps/reddit-kafka/src/stream/worker.py:236-336 | The outcome of every comment from the data and what happens to it: replayed, invalid, note failed, undelivered or interrupted exactly in the listed cases, and queued in every other. |
| `StreamWorkers.CountsExactly` | apps/reddit-kafka/src/stream/worker.py:273-308 | A message is produced exactly for a well-formed, new, accepted comment; the count towards the checkpoint, the last acknowledged message and the failed writes in a row move exactly as the write ends. |
| `StreamWorkers.CheckpointExactlyWhenDelivered` | apps/reddit-kafka/src/stream/worker.py:297-308 | A comment's checkpoint is written iff it is the hundredth since the last, every message the worker ever produced is reported delivered when the wait ends, and no cancellation arrives together with the last of these reports; the worker moves the stored checkpoint only then, and only to this comment. |
| `StreamWorkers.CheckpointIffDeliveredExactlyWhen` | apps/reddit-kafka/src/stream/worker.py:304-308 | 'The hundredth comment is checkpointed iff everything produced is delivered when the wait ends' fails exactly when a cancellation arrives together with the last reports. |
| `StreamWorkers.WaitDecides` | apps/reddit-kafka/src/stream/worker.py:274-306 | The same of the wait itself; the message just produced is still open when the first poll runs, so that poll never meets a delivered batch. |
| `StreamWorkers.InterferenceKeepsSound` | apps/reddit-kafka/src/stream/worker.py:196-234 | Whatever others do while the worker waits, its batch, log and futures stay sound and no report is lost. |
| `StreamWorkers.ReplayWindow` | apps/reddit-kafka/src/stream/worker.py:297-308 | Between comments in any session of any run, pending = comments since the checkpoint < 100, and after k consecutive failed checkpoint writes fewer than 100 * (k + 1) produced messages lie beyond the last acknowledged one. |
| `StreamWorkers.DeliveryFailureIsFinal` | apps/reddit-kafka/src/stream/worker.py:183-234 | After a delivery failure no continuation (further comments, session end, error handler's own calls, remaining turns, shutdown) produces a message or advances the checkpoint; the loop is left for good, by an exception unless the handler itself is cancelled. |
| `StreamWorkers.SessionKeepsSound` | apps/reddit-kafka/src/stream/worker.py:196-234 | A delivery failure in a session always comes out of the fetch handler as the same fatal error. |
| `StreamWorkers.UndisturbedSession` | apps/reddit-kafka/src/stream/worker.py:206-230 | A session in which nothing goes wrong gets through its comments and produces one message for each. |
| `StreamWorkers.TroubleEndsTheSession` | apps/reddit-kafka/src/stream/worker.py:206-234 | The first comment that stops a session decides how it ends; after a queued, replayed or invalid one it goes on. |
| `StreamWorkers.SessionsEnd` | apps/reddit-kafka/src/stream/worker.py:196-234 | How a session ends, by how its opening, its comments and its stream end. |
| `StreamWorkers.FetchErrorsComeOut` | apps/reddit-kafka/src/stream/worker.py:416-429 | Every error comes out of the fetch handler again, except where the note of a missing or forbidden subreddit itself fails or is cancelled. |
| `StreamWorkers.TurnKeepsSound` | apps/reddit-kafka/src/stream/worker.py:496-528 | The error handler never swallows it, whether its own Redis and Postgres calls succeed, fail or are cancelled; a cancellation is never swallowed either. |
| `StreamWorkers.RecoveriesEnd` | apps/reddit-kafka/src/stream/worker.py:496-528 | What the error handler makes of an error: its own failing calls first, then abandon, retry or raise. |
| `StreamWorkers.FirstEndDecides` | apps/reddit-kafka/src/stream/worker.py:183-194 | The loop and the run end with what the first turn ends with that does not end normally. |
| `StreamWorkers.RunIsSound` | apps/reddit-kafka/src/stream/worker.py:111-181 | The log of every finished run: after a failure or interruption nothing but the shutdown re-save, and with each checkpoint write the reports that were in at that moment, by which everything produced before it was delivered. |
| `StreamWorkers.StreamWorker.FetchAndProcessComments` | apps/reddit-kafka/src/stream/worker.py:196-234 | One session, with the fetch handler, does to worker, breaker and store what `RunSession` says. |
| `StreamWorkers.StreamWorker.StreamLoop` | apps/reddit-kafka/src/stream/worker.py:183-194 | The main loop through the breaker and the error handler computes `Turns`. |
| `StreamWorkers.StreamWorker.SaveCheckpoint` | apps/reddit-kafka/src/stream/worker.py:443-448 | The shutdown re-save writes back the value it read, over whatever others wrote in between, and changes nothing else. |
| `StreamWorkers.ResaveUndoesExactlyWhen` | apps/reddit-kafka/src/stream/worker.py:443-448 | The re-save changes what others left stored iff the last of them to write between its read and its write wrote another value and the re-save arrives. |
| `StreamWorkers.ResavesExactlyWhen` | apps/reddit-kafka/src/stream/worker.py:165-171 | The re-save happens exactly on a shutdown whose read finds a checkpoint, and writes back that value. |
| `StreamWorkers.StreamWorker.Run` | apps/reddit-kafka/src/stream/worker.py:111-181 | Loop, stop and shutdown re-save together compute `RunWorker`. |
| `WorkerRefinement.RunIsSimulated` | apps/reddit-kafka/src/stream/worker.py:111-181 | A whole run of the worker (sessions, comments, errors, retries, closing), with arbitrary steps of others wherever it awaits, is a run of `CheckpointSafety`: if what the others do is possible when its turn comes, so is everything the worker does. |
| `WorkerRefinement.StoredAfterRunIsDelivered` | apps/reddit-kafka/src/stream/worker.py:111-181 | From a start in any reached world: whatever checkpoint is stored when the worker has run was there from the beginning or was first written by a worker that then held a success report for every message it had produced. |
| `WorkerRefinement.OthersAreSimulated` | apps/reddit-kafka/src/stream/worker.py:196-234 | After any step of the protocol that is not the worker's own, its data changed by what it notices of the step mirrors the world again. |
| `WorkerRefinement.CommentIsSimulated` | apps/reddit-kafka/src/stream/worker.py:236-336 | Whatever the worker does to one comment is a run of `CheckpointSafety`'s steps from any world holding its data. |
| `WorkerRefinement.ClosingIsSimulated` | apps/reddit-kafka/src/stream/worker.py:443-448 | So is its end, with the shutdown re-save. |
| `WorkerRefinement.PathsAreRuns` | apps/reddit-kafka/src/stream/worker.py:111-181 | Steps that lead on from a reached world extend the run that reached it, so what holds of all runs holds of them. |
| `CheckpointSafety.DeliveryBeforeCheckpoint` | apps/reddit-kafka/src/stream/worker.py:273-308 | In every run with crashes, takeovers, late writes, stale re-saves and flushers, each checkpoint in Redis or Postgres was first written by a worker that then held a success report for every message it had produced, and those stay delivered. |
| `CheckpointSafety.EveryValueHasAnOrigin` | apps/reddit-kafka/src/stream/worker.py:431-448 | The same for values still on their way to either store. |
| `CheckpointSafety.NewValuesAreConfirmed` | apps/reddit-kafka/src/tasks/checkpoint_flusher.py:120-171 | No step but a confirmed batch brings a new checkpoint value into the system; re-saves and flushes only copy. |
| `CheckpointSafety.WritesCanLand` | apps/reddit-kafka/src/stream/worker.py:431-448 | A confirmed checkpoint can land at once and is then stored; so can a held re-save. |
| `CheckpointSafety.FlushesCopy` | apps/reddit-kafka/src/tasks/checkpoint_flusher.py:120-171 | A flusher that reads a checkpoint can write it, and Postgres then holds that value. |
| `CheckpointFlusher.Flusher.Flush` | apps/reddit-kafka/src/tasks/checkpoint_flusher.py:120-171 | Listing first and reading later in one transaction, the pass upserts exactly the listed, owned, non-empty, parseable checkpoints and prunes exactly the listed entries not owned from the index as it is by then; a pruning that raises or a database that refuses leaves every row as it was. |
| `CheckpointFlusher.RowsHoldTheCheckpoints` | apps/reddit-kafka/src/tasks/checkpoint_flusher.py:75-98 | What a pass leaves in a row, read off Redis' hashes: the comment id, the time the parser reads in the text without trailing Zs, or none without a text; skipped only if the parser refuses. |
| `CheckpointFlusher.IndexKeepsTheOwned` | apps/reddit-kafka/src/tasks/checkpoint_flusher.py:140-166 | The index loses exactly the listed streams whose record does not name this instance. |
| `CheckpointFlusher.Flusher.Collect` | apps/reddit-kafka/src/tasks/checkpoint_flusher.py:126-161 | Entry i is judged by replies 2i and 2i + 1: each due checkpoint once and nothing else, and exactly the not-owned ids as stale. |
| `CheckpointFlusher.Flusher.Upsert` | apps/reddit-kafka/src/tasks/checkpoint_flusher.py:173-215 | All rows of the batch or none. |
| `CheckpointFlusher.SecondFlushChangesNothing` | apps/reddit-kafka/src/tasks/checkpoint_flusher.py:75-98 | A second pass on quiescent Redis changes no comment id or processed time, adds no row and prunes nothing. |
| `Registry.Redis.DeleteScript` | apps/reddit-kafka/src/repositories/stream_registry.py:15-35 | Deletes exactly when the guards match; frees the claim only of this id; sets the identity; keeps the checkpoint unless purging. |
| `Registry.Redis.Heartbeat` | apps/reddit-kafka/src/repositories/stream_registry.py:37-47 | Restamps and re-indexes exactly when the record is active on this instance. |
| `Registry.Redis.UpdateIfOwner` | apps/reddit-kafka/src/repositories/stream_registry.py:49-58 | Updates exactly when this instance is the recorded owner. |
| `Registry.Redis.FinalizeStop` | apps/reddit-kafka/src/repositories/stream_registry.py:60-75 | Finalizes exactly a record with status stopping and the expected stamp and no lock, writing status stopped and the new stamp and no other field or record. |
| `Registry.StoppingIsFinalized` | apps/reddit-kafka/src/repositories/stream_registry.py:37-75 | A written stop can be finalized with its stamp once there is no lock, and then not again; while a heartbeat is accepted, no finalization is, and after a stop was written no heartbeat. |
| `Registry.ActivatedIsKeptFresh` | apps/reddit-kafka/src/repositories/stream_registry.py:37-47 | An activated record is kept fresh and indexed by its instance and nobody else. |
| `Registry.OwnersWrite` | apps/reddit-kafka/src/repositories/stream_registry.py:49-58 | Only the recorded owner may write a status, and the record stays its own. |
| `Registry.Redis.UpdateStatus` | apps/reddit-kafka/src/repositories/stream_registry.py:289-307 | The unguarded write, with the index moved from the previous owner to the new one. |
| `Registry.Redis.DeleteStream` | apps/reddit-kafka/src/repositories/stream_registry.py:444-484 | Deletes exactly when the record names its subreddit and is unchanged, otherwise changes nothing. |
| `Registry.Redis.CreateStream` | apps/reddit-kafka/src/repositories/stream_registry.py:145-240 | Alone, a create succeeds iff the subreddit is unclaimed and its identity is usable, returns that identity, and sets claim, identity, record, listing and index, keeping checkpoints; a failing one changes nothing but a first identity. |
| `RegistryRuns.StableIdentity` | apps/reddit-kafka/src/repositories/stream_registry.py:161-192 | Under any command-level interleaving of creates and deletes, the id a subreddit was ever bound to, or a create ever returned for it, is the one every later create returns for it, and no other subreddit gets it. |
| `RegistryRuns.IdentityKeyIsFinal` | apps/reddit-kafka/src/repositories/stream_registry.py:15-35 | An identity key, once set, never changes and never disappears, although the delete script writes it. |
| `RegistryRuns.CheckpointsSurvive` | apps/reddit-kafka/src/repositories/stream_registry.py:444-484 | Across stop, cleanup and restart a checkpoint changes only by a checkpoint write of its stream. |
| `RegistryRuns.CheckpointsAreKept` | apps/reddit-kafka/src/repositories/stream_registry.py:486-500 | No step of any client removes a checkpoint. |
| `RegistryRuns.OneWinnerPerGeneration` | apps/reddit-kafka/src/repositories/stream_registry.py:161-181 | Between two successful claims of a subreddit lies the delete script that removed the first one's claim. |
| `RegistryRuns.LosersWriteNothing` | apps/reddit-kafka/src/repositories/stream_registry.py:161-197 | In every run, no command of a creator that in the end fails writes metadata, claims, stop keys, listings, indexes or checkpoints; at most it gives its subreddit a first identity. |
| `RegistryRuns.FieldAfterStep` | apps/reddit-kafka/src/repositories/stream_registry.py:15-75 | What a step of any client does to any field of a record: which guarded or unguarded write sets it, under which condition, and that nothing else does. |
| `RegistryRuns.SetsAfterStep` | apps/reddit-kafka/src/repositories/stream_registry.py:15-35 | A record goes exactly when its delete script finds it as expected, with its stop key and listing; what stores and lists them. |
| `RegistryRuns.IndexAfterStep` | apps/reddit-kafka/src/repositories/stream_registry.py:289-307 | An index gains what is created on, beats from or is tracked for its instance, and loses only what is untracked. |
| `RegistryRuns.UndisturbedCreate` | apps/reddit-kafka/src/repositories/stream_registry.py:145-197 | The create client, undisturbed, succeeds on an unclaimed subreddit and does what `CreateStream` does. |
| `RegistryRuns.ClientsTakeTheirTurns` | apps/reddit-kafka/src/repositories/stream_registry.py:145-197 | A client of a run is there once it is spawned, and each of its turns sends its next command, the others staying as they are. |
| `RegistryRuns.RefusedCreate` | apps/reddit-kafka/src/repositories/stream_registry.py:153-160 | On a claimed subreddit it gives up and leaves the claimed id as the identity. |
| `RegistryRuns.UndisturbedDelete` | apps/reddit-kafka/src/repositories/stream_registry.py:444-484 | The delete client, undisturbed, removes record, claim, stop key, listing and index entry and keeps identity and checkpoint. |
| `RegistryRuns.UpdatedAtIsAVersion` | apps/reddit-kafka/src/repositories/stream_registry.py:15-75 | A conditional delete or finalization given a scanned stamp succeeds only on a record equal to the scanned one field for field. |
| `RegistryRuns.GuardedScriptsNeverRecreate` | apps/reddit-kafka/src/repositories/stream_registry.py:37-75 | No sequence of guarded scripts brings a deleted record back. |
| `RegistryRuns.UnguardedWriteRecreates` | apps/reddit-kafka/src/repositories/stream_registry.py:298-301 | The unguarded status write does, and leaves a record delete_stream refuses to delete. |
| `RegistryRuns.RecreatedExactlyBy` | apps/reddit-kafka/src/repositories/stream_registry.py:183-192 | In every run a step brings an absent record into being iff it is an unguarded status write for it or the metadata write of a creator holding its claim. |
| `DeadStreamCleanup.Cleanup` | apps/reddit-kafka/src/tasks/dead_stream_cleanup.py:91-135 | A sweep asks for the conditional delete of exactly the scanned records with status stopped, error or inactive and an id, in order, each with the status and stamp the scan saw; a delete that raises is skipped, and the count is that of the deletes answered as done. |
| `DeadStreamCleanup.DeletionsExactly` | apps/reddit-kafka/src/tasks/dead_stream_cleanup.py:91-148 | Every delete asked for expects the status stopped, error or inactive, and every scanned record with one of these and an id is asked for. |
| `DeadStreamCleanup.LookAndScriptAgree` | apps/reddit-kafka/src/repositories/stream_registry.py:457-480 | With other clients acting between the scan, the look and the script of a delete, a script that succeeds met the very record that the look and the scan saw. |
| `DeadStreamCleanup.SweepsOnlyWhatItSaw` | apps/reddit-kafka/src/tasks/dead_stream_cleanup.py:100-127 | In every run, with any clients in both of these gaps, a sweep deletes only a dead record equal to the scanned one, keeps identity and checkpoints, touches no other record or claim, and otherwise changes nothing. |
| `DeadStreamCleanup.FinalizedIsSwept` | apps/reddit-kafka/src/tasks/dead_stream_cleanup.py:137-148 | A stream whose abandoned stop was just finalized is swept, on condition that it stays so. |
| `DeadStreamCleanup.LiveIsNotSwept` | apps/reddit-kafka/src/tasks/dead_stream_cleanup.py:137-148 | A stream that was just created, that beats, or whose stop is still to be finalized is not. |
| `StopProtocol.StopNeverLosesGround` | apps/reddit-kafka/src/stream/manager.py:161-209 | From the stored stop key to the deletion, 2 * committed starts + running workers never grows, and every completed start and every poll of a running worker lowers it. |
| `StopProtocol.StopWins` | apps/reddit-kafka/src/stream/manager.py:401-427 | After as many such steps as that sum had at first, nobody runs or can come to run. |
| `StopProtocol.StatesAreHistories` | apps/reddit-kafka/src/stream/manager.py:112-209 | Claim, stop key and the stage of each activation are at any time what the history of its own steps, stop requests and deletions says. |
| `StopProtocol.NoNewWorkerExactlyWhen` | apps/reddit-kafka/src/stream/manager.py:112-209 | In any reached state after the stop request, no new worker can appear before the deletion iff no start is committed. |
| `StopProtocol.AStartMayOutliveTheRequest` | apps/reddit-kafka/src/stream/manager.py:112-159 | A worker can still appear after the stop key was stored: a first start never checks it. |
| `StopProtocol.AnAdoptionMayOutliveTheRequest` | apps/reddit-kafka/src/stream/manager.py:187-209 | So can an adopted one, which checked before the key was stored. |
| `ManagerDrain.DrainLeavesNoLiveWorker` | apps/reddit-kafka/src/stream/manager.py:438-451 | In every interleaving of starts with stop_all, from its snapshot on no worker task is created, and when it returns every one ever created is done. |
| `ManagerDrain.LateRegistrationIsDrained` | apps/reddit-kafka/src/stream/manager.py:121-155 | A start already inside the lock when the flag is set still registers before the snapshot and is drained. |
| `ManagerDrain.CreatedAreRegistered` | apps/reddit-kafka/src/stream/manager.py:148-155 | The created tasks are those a start registered. |
| `ManagerDrain.DoneAreFinished` | apps/reddit-kafka/src/stream/manager.py:295-345 | The done tasks are those that finished, before or after their first step. |
| `ManagerDrain.TableAfterStep` | apps/reddit-kafka/src/stream/manager.py:121-155 | A stream is in the table from its registration until its task removes it. |
| `ManagerDrain.ArrivalsWait` | apps/reddit-kafka/src/stream/manager.py:121-123 | A start that arrives waits for the lock, and may enter whenever the lock is free. |
| `ManagerDrain.StartsAreDecidedInside` | apps/reddit-kafka/src/stream/manager.py:121-155 | A start gets its task iff inside the lock it meets no shutdown and a free stream, and always leaves the lock. |
| `ManagerDrain.DrainReturnsWhenDone` | apps/reddit-kafka/src/stream/manager.py:438-451 | The drain returns as soon as every task of its snapshot is done, and not before. |
| `ManagerDrain.Invariant` | apps/reddit-kafka/src/stream/manager.py:121-155 | Every live worker task is in the table, and nobody but the lock's holder is past the shutdown check. |
| `CircuitBreakers.BackoffClosedForm` | apps/reddit-kafka/src/stream/circuit_breaker.py:128-188 | Over every history: CLOSED means failures below the threshold and the base backoff; HALF_OPEN means successes below its threshold; after n openings since last closed the backoff is min(recovery * 2^n, maximum). |
| `CircuitBreakers.NextState` | apps/reddit-kafka/src/stream/circuit_breaker.py:66-188 | Where every event takes the circuit, from the history alone: the failure that opens it, the success that closes it, the call that probes it, the wait a rejection advises. |
| `CircuitBreakers.CountersAreTheHistorys` | apps/reddit-kafka/src/stream/circuit_breaker.py:128-188 | Failures count those in a row since the last success, in any state; successes those since the last failure or probe. |
| `CircuitBreakers.CircuitBreaker.BeginCall` | apps/reddit-kafka/src/stream/circuit_breaker.py:66-91 | What admits, rejects or probes, and the wait a rejection asks for. |
| `CircuitBreakers.CircuitBreaker.RecordSuccess` | apps/reddit-kafka/src/stream/circuit_breaker.py:128-142 | The recovery rule the histories are built from. |
| `CircuitBreakers.CircuitBreaker.RecordFailure` | apps/reddit-kafka/src/stream/circuit_breaker.py:144-188 | The opening rule the histories are built from. |
| `StreamLoops.RejectionsAreIsolated` | apps/reddit-kafka/src/stream/circuit_breaker.py:112-126 | No two successive calls of the worker's loop are turned away: the advised wait, rounded up, always suffices. |
| `StreamLoops.AttemptSpacing` | apps/reddit-kafka/src/stream/worker.py:183-194 | With only transient failures the k-th attempt starts no earlier than 20 + sum of min(60 * 2^j, 3600), j = 1..k-5, seconds after the loop (k >= 6). |
| `StreamLoops.TwoCommentsCloseTheCircuit` | apps/reddit-kafka/src/stream/circuit_breaker.py:128-142 | Two comments yielded to a worker's probe close its circuit and end the backoff. |
| `StreamLoops.WorkerRunsAreTimed` | apps/reddit-kafka/src/stream/worker.py:183-194 | Every run of the worker's loop that is not cancelled is a run of the timed loop: same breaker, attempts and clock, and it ends exactly when the other does. |
| `StreamLoops.WorkerAttemptSpacing` | apps/reddit-kafka/src/stream/worker.py:183-194 | So the bound on the k-th attempt holds of the calls the worker's own loop lets through. |
| `StreamLoops.WorkerRejectionsAreIsolated` | apps/reddit-kafka/src/stream/circuit_breaker.py:112-126 | And the worker's loop never has two successive calls turned away. |
| `ErrorHandling.RecoverableIffRetried` | apps/reddit-kafka/src/stream/error_handler.py:200-263 | The recorded is_recoverable flag agrees with the recovery action for errors of any combination of classes. |
| `ErrorHandling.Dispositions` | apps/reddit-kafka/src/stream/error_handler.py:200-263 | What becomes of an error of any combination of classes: abandon, wait 60 s, as long as the circuit says, or 5 s, or unhandled. |
| `StreamLoops.ErrorsNeverSpin` | apps/reddit-kafka/src/stream/error_handler.py:226-240 | An error loop never spins: while every turn fails, whatever the errors, each attempt costs at least five seconds and each rejection one. |
| `Migrations.Connection.ExecuteMigrations` | apps/reddit-kafka/src/migrations.py:89-130 | One transaction: the database afterwards is the committed result, or what it was. |
| `Migrations.HistoriesAreConsistent` | apps/reddit-kafka/src/migrations.py:89-130 | Over any history of runs with edited files and failures each version is executed at most once and stays recorded with the checksum of what was executed. |
| `Migrations.CommitsExactlyWhen` | apps/reddit-kafka/src/migrations.py:104-119 | A run commits iff every file decodes, no applied file was edited, no pending name repeats, and the server rejects no pending script in the database state it runs in. |
| `Migrations.FailsAtTheFirstTrouble` | apps/reddit-kafka/src/migrations.py:104-130 | A run that fails names the first file something is wrong with, and what. |
| `Migrations.RunsTakeEffect` | apps/reddit-kafka/src/migrations.py:89-130 | After a run the database is what it committed, or as before. |
| `Migrations.CommitRunsPendingInOrder` | apps/reddit-kafka/src/migrations.py:119-130 | A commit adds exactly the pending scripts, in file order. |
| `Migrations.RerunIsNoOp` | apps/reddit-kafka/src/migrations.py:110-117 | After a commit, a run on the same files executes nothing and changes nothing. |
| `Migrations.RunWithRetry` | apps/reddit-kafka/src/migrations.py:51-76 | At most 61 attempts; all but the last failed retryably; it gives up only after ten minutes, and other errors propagate at once. |

## Left out

- The manager's methods as a class: their awaits interleave with other starts, stops and drains, so they are the steps of `LeaseProtocol`, `StopProtocol` and `ManagerDrain` instead; its two `owns_lock` checks can only end an activation early and appear as `Quit`.
- `reconcile_once` and `_needs_reconciliation`: which streams a sweep tries to adopt; any adoption at any time is allowed in the runs.
- StopProtocol.StopNeverLosesGround: is about one stream, and takes a worker whose watcher has seen the key as no longer running; how long its cancellation takes is not modelled.
- LeaseProtocol.MutualExclusion: is about one subreddit; keys of different subreddits do not touch each other.
- CheckpointSafety.DeliveryBeforeCheckpoint: covers `last_comment_id`; timestamps in the hash are not modelled, and comments the subreddit stream never yields are outside the claim.
- StreamWorkers.StreamWorker.Run: starts after the lease was verified; the refresher task beside the loop and the final release of the lock are `LeaseProtocol`'s, here they appear as a cancellation at any await.
- CircuitBreakers.BackoffClosedForm: is for multiplier 2 and a recovery time of at least 30 seconds and at most the maximum, which includes every worker's configuration; manual `reset` is not an event.
- Comparison of wall-clock and monotonic time: the breaker reads the wall clock, and a backward jump of it is not modelled.
- RegistryRuns.StableIdentity: excludes the purging delete, which no caller uses; its effect on the keys is in `Registry.DeleteIfUnchanged`.
- Order and extra hops of index maintenance in `update_status`: in interleaved runs any client may add or remove index entries at any time.
- Postgres rows for streams and errors: best-effort mirrors whose failures are swallowed.
- HTTP routes, client construction, metrics, tracing, logging, Avro serialization and message validation (a message is well formed or not).
- `flush_stream_on_stop` and `create_tables_from_models`: no behaviour beyond members already modelled.
- Migrations.RunWithRetry: takes closing the database between attempts as part of an attempt's duration.
