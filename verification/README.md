# Oxana: a verified model

Oxana is a job queue on Redis. Processes register, send heartbeats, claim jobs from queues, and
acknowledge, retry or bury them; peers recover the claims of processes that died. This project
models the hard parts of that program in Dafny and proves what they promise.

The files, from the bottom up:

- `Options` is the usual option type.
- `Json` is an independent recogniser for JSON texts (RFC 8259); `Snapshot` models the snapshot
  that a replacing enqueue takes of a stored payload, and proves that comparing a few bytes of
  the payload is enough to know its queue. `ObjectTexts` shows that the recogniser reads every
  envelope as it is stored.
- `Redis` is the typed keyspace that the enqueue script works on, `EnqueueSpec` the meaning of an
  enqueue (one envelope at a time), `EnqueuePlaces` where jobs are afterwards, `EnqueueScript` the
  script, `Enqueue` the client around it: compaction, snapshots, existence checks, and the
  optimistic loop.
- `Gate` is the concurrency gate; `Claims` is one runtime on top of its gates: which permit holds
  which claim at which stage, what was dropped, and which failures are still to come.
- `Protocol` is the claim, heartbeat and recovery protocol as a transition system in which every
  Redis command or script of every client, and every move of every runtime, is one step;
  `ProtocolSafety` proves its invariant over all interleavings, `ProtocolEffects` that jobs move on:
  in order, to each end, and out of the lists of processes that are gone; `LateFailure` gives the
  run that shows why a claim may be unheld for a while, `TimingBound` proves that the timing
  condition is exact, `Recovery` models one sweep.
- `Batcher` is the routing to batchers and the batcher, `Execution` the way of a claimed job to
  its transition, `Retries` what failures leave and report over whole lives of jobs, and `Serving`
  puts gate, dispatchers, channel, batcher and tasks together; `Ledger` relates what that comes to
  with the runtimes of `Claims`.
- `Throttle` is the sliding-window throttler, `ThrottleRuns` the runs that make its bounds exact,
  `Backoff` the two retry loops with jitter.
- `Progress` is the resumable iterator over crashes, `Results` and `Metrics` the counters, their
  flushes and their aggregation, `FieldCodec` the names of metric fields.

What a class or a loop of the program does step by step is a class or a method here, proved against
functions on values; what is promised of those functions, or of whole runs, is proved as lemmas.
Nondeterminism (answers of Redis, timing, what a worker does) is a parameter or an arbitrary choice.

## Premises

- A model process is one storage identity used by one runtime or one drain. There is one global
  clock. Tasks end by returning. Commands of a process do not land after it has stopped.
- Process ids hold no colon, and neither do the host names and instances they are made of:
  `Recovery.SegmentIsProcess` shows that an id with a colon is misread from its list key.
- A live process refreshes its score at least once in every `heartbeat`, and a sweeper reads the
  clock within `delay` of reading the process set; the two together are at most the threshold.
  `TimingBound.TimingIsExact` shows that this cannot be weakened.
- In `Protocol` the acknowledgment of a batch is one step for each of its jobs. A drain is a process
  with one claim at a time; what is left when it returns is a failure to come until it has stopped.
- In `Execution` the payload that a retry reads is still the stored one when its script runs; the
  step `Fail` of `Protocol` takes any payload of the same route.
- In `Serving` a turn runs to its end before the next one starts; the interleavings of single
  commands are those of `Protocol`.
- All retries of a batch take their time from one clock reading (`Course.now`).
- A tracked job has a fresh id. Replacing, deleting, wiping or expiring it ends the tracking.
- Each write of another client during an enqueue is one element of `Server.others`. The store that a
  replacing enqueue leaves is stated for replaced payloads that are JSON with one root field
  `queue`; without that the program itself cannot know the old queue.
- ZADD and PEXPIRE of a consumer are two steps. The old expiry of the key may come in between
  (`Throttle.Hasty`); `Throttle.WindowBound` counts those, and what the throttle is for holds in
  runs without any.
- A failed flush of counters was not applied. Sums stay below the width of the counters where a
  contract says so. `Metrics.ReportedAsRecorded` is about hashes whose fields a flush has written.
- SCAN reports keys that existed while it ran; a list exists while it is not empty.

## Model

| member | source | states |
|---|---|---|
| `Snapshot.SnapshotSound` | oxana/src/storage_internal.rs:105-146 | For all byte strings: a valid JSON text that agrees with a snapshot (whole text, the prefix through the root queue value, or the suffix from the root `,"queue":`) has a root field `queue` that names the queue in the snapshot; if it has one such field, it names no other |
| `Snapshot.PrefixKeepsMember` | oxana/src/storage_internal.rs:122-130 | Equal leading bytes up to the end of the root queue value give the same root member, even when the text goes on differently |
| `Snapshot.SuffixKeepsMember` | oxana/src/storage_internal.rs:131-136 | Equal trailing bytes from the root `,"queue":` on give the same root member, moved by the difference in length |
| `Snapshot.SuffixAtRoot` | oxana/src/storage_internal.rs:131-136 | In two valid texts with the same tail, a tail that starts at the root queue field of the one starts at the root of the other: no string, escape or nesting before it can change that |
| `Snapshot.QueueKeyOpens` | oxana/src/storage_internal.rs:118-121 | Nine bytes `,"queue":` in a valid text followed by a value never lie inside a string: they open a member of that key at whatever depth |
| `Snapshot.MembersRecorded` | oxana/src/storage_internal.rs:110-117 | Every recorded root member starts where the grammar expects its value, and ends with the byte that closes the value, or, for a number, before the first byte that is no longer part of it |
| `Snapshot.RootQueue` | oxana/src/storage_internal.rs:110-117 | The parsed queue field is a recorded root member, the only one whose decoded key is `queue`, and its raw text decodes to the queue |
| `Snapshot.RootQueueExactly` | oxana/src/storage_internal.rs:105-117 | Exactly when a payload names a queue and which, and exactly when each error comes: a text or a root key that does not parse, no root key `queue`, more than one, or one whose value is no string |
| `Snapshot.QueueMembersExactly` | oxana/src/storage_internal.rs:110-117 | None, one or several root members are found exactly as none, one or several have a key that decodes to `queue`, and the one found is the one that has it |
| `Snapshot.ParseExactly` | oxana/src/storage_internal.rs:110-121 | A payload gets a snapshot exactly if its queue is found, with the same error otherwise; the whole payload is kept exactly if the bytes before the value are not `,"queue":` |
| `ObjectTexts.ObjectRead` | oxana/src/job_envelope.rs:30-35 | Every object text of plain keys and JSON values is a valid JSON text, and its root members are exactly its fields, each with the bytes of its value |
| `ObjectTexts.ObjectIsText` | oxana/src/job_envelope.rs:30-35 | An object text is a JSON value again, so that the objects of an envelope nest |
| `ObjectTexts.DecodeEscape` | oxana/src/storage_internal.rs:105-117 | Decoding a JSON string undoes escaping it, for every string |
| `ObjectTexts.QuotedIsText` | oxana/src/storage_internal.rs:105-117 | Every quoted string is a JSON value that stands for that string |
| `ObjectTexts.QueueIsRead` | oxana/src/job_envelope.rs:30-35 | A stored envelope, wherever its field `queue` is among its fields and whatever the others hold, is read back to its queue |
| `Snapshot.UnchangedMatches` | oxana/src/enqueue.lua:27-39 | A payload matches its own snapshot, so an unchanged store is never reported stale |
| `EnqueueScript.EntryQueue` | oxana/src/storage_internal.rs:686-724 | At commit the queue key declared for a replaced id is the key of the queue its stored payload names, whenever that payload is JSON that names one |
| `EnqueueScript.CompareSnapshots` | oxana/src/enqueue.lua:21-43 | Exactly the ids whose snapshot no longer holds are reported, with their payloads; otherwise presence is right for every compared id, and so are the old queue keys of payloads that name their queue |
| `EnqueueScript.PlanInput` | oxana/src/enqueue.lua:48-67 | One planned input decides as the simple semantics does on the store the earlier inputs would leave, from the tables alone; the old queue too, when the table has the right ones |
| `EnqueueScript.PlanWrites` | oxana/src/enqueue.lua:45-67 | The planned outcomes are those of handling the inputs one at a time, and so are the writes when the table of old queues is right |
| `EnqueueScript.RequireType` | oxana/src/enqueue.lua:9-15 | A key is accepted only with the type it was first required with, and that its value has |
| `EnqueueScript.CheckWrite` | oxana/src/enqueue.lua:69-83 | A write passes only if every key it touches has its type, aliases included |
| `EnqueueScript.CheckAll` | oxana/src/enqueue.lua:69-83 | All writes are checked before the first one; it fails only when some key has the wrong type |
| `EnqueueScript.CheckedReady` | oxana/src/enqueue.lua:69-83 | The types that all planned writes were checked with are still there when each write gets its turn |
| `EnqueueScript.RunWrite` | oxana/src/enqueue.lua:85-103 | After the checks no command of a write can raise WRONGTYPE; a replaced job has left the retries and its old queue, the job is once at the front of its queue or in the schedule with its score, every other id keeps its places, and the checked types still hold |
| `EnqueuePlaces.WriteRelocates` | oxana/src/enqueue.lua:85-103 | A write leaves a replaced job in neither the retries nor its old queue, unless that is the new one, puts it once at the front of its queue or into the schedule with its score, and keeps the places, order and scores of every other id |
| `EnqueuePlaces.OneRelocates` | oxana/src/enqueue.lua:45-103 | One envelope: exactly a Skip of a stored id is skipped and leaves the store alone, exactly a replacement of a stored id is reported as replaced; the job is moved as said for a write |
| `EnqueuePlaces.ReplacedOnce` | oxana/src/enqueue.lua:85-103 | After a whole request a job it replaced is in its new place once, and neither among the retries nor in the queue it left |
| `EnqueuePlaces.UniqueWaitOnce` | oxana/src/enqueue.lua:45-103 | While only unique jobs are enqueued every id waits in one place at most, and what a request has written waits exactly once |
| `EnqueuePlaces.WithoutAppend` | oxana/src/enqueue.lua:90-95 | Removing an id from a list keeps the rest in its order |
| `EnqueuePlaces.QueueKeys` | oxana/src/storage_internal.rs:2318-2324 | Different queue names have different lists, a name and its key the same one, and none of them is the key of the jobs, the schedule or the retries |
| `EnqueueScript.Run` | oxana/src/enqueue.lua:1-104 | All or nothing: unless it commits the store is unchanged; a commit has every snapshot holding and the verdicts of one-at-a-time handling at the store it ran on, and, when the replaced payloads name their queues, leaves that store; a changed reply lists exactly the stale ids with their payloads; WRONGTYPE only when some key has the wrong type |
| `EnqueueSpec.PlanThenPerform` | oxana/src/enqueue.lua:45-104 | Deciding all inputs first and writing afterwards leaves the same store and verdicts as deciding and writing one at a time |
| `EnqueueSpec.PerformJobs` | oxana/src/enqueue.lua:85-103 | The whole write of one job changes the payload hash in that job only, when no other key it touches is that hash |
| `EnqueueSpec.PlanKeepsWellFormed` | oxana/src/storage_internal.rs:548-769 | Every payload stays JSON that names its queue |
| `EnqueueSpec.PlanKeepsJobs` | oxana/src/storage_internal.rs:584-606 | No id is lost while envelopes are handled, and every handled id is stored |
| `EnqueueSpec.LeaveOut` | oxana/src/storage_internal.rs:639-679 | Leaving out envelopes that would be skipped changes neither writes nor stored jobs, and the verdicts are those of the rest with skips filled in |
| `EnqueueSpec.ApplyAppend` | oxana/src/storage_internal.rs:534-546 | Handling two lists in turn is handling their concatenation |
| `Enqueue.Compact` | oxana/src/storage_internal.rs:584-605 | Exactly the Skips that repeat an id kept before in the chunk, or written before in the request, are dropped |
| `Enqueue.ReplacementIds` | oxana/src/storage_internal.rs:610-622 | Exactly the ids of kept replacements that no kept unconditional write precedes are snapshotted, each once, so that the old queue of every kept replacement is known |
| `Enqueue.SelectCovered` | oxana/src/storage_internal.rs:610-703 | After filtering, the old queue of every replacement is still known |
| `Enqueue.TakeSnapshots` | oxana/src/storage_internal.rs:623-634 | Fails exactly when a replaced payload is not JSON that names its queue; otherwise every snapshot holds at the store it was taken from |
| `Enqueue.LeaveOutExisting` | oxana/src/storage_internal.rs:636-673 | Only Skips are left out: with nobody else writing exactly those whose id is known to be stored, and a single one exactly if it is stored at that time |
| `Enqueue.Refresh` | oxana/src/storage_internal.rs:763-767 | Fails exactly when a reported payload does not parse; otherwise, after a stale reply, the snapshots hold at the store the script ran on |
| `Enqueue.Retake` | oxana/src/storage_internal.rs:763-767 | After a stale reply the loop has snapshots that hold at the store of the script and cover every replacement again, or fails because of a payload that names no queue |
| `Enqueue.DeclareQueues` | oxana/src/storage_internal.rs:686-703 | KEYS declares every destination and every old queue of a snapshot, nothing else and each once; each index leads to the key of its queue |
| `Enqueue.SnapshotArguments` | oxana/src/storage_internal.rs:705-724 | Under the indexes sent with the snapshots the script finds the keys of their queues |
| `Enqueue.Invoke` | oxana/src/storage_internal.rs:680-768 | One invocation with its keys declared anew: commits as the script does, or writes nothing; a stale reply only when a snapshot no longer holds |
| `Enqueue.StaleNeedsWrite` | oxana/src/storage_internal.rs:763-767 | A snapshot that held at one store is not stale at the same store: a stale reply needs a write of another client |
| `Enqueue.CommitLoop` | oxana/src/storage_internal.rs:680-768 | The loop ends; its rounds are at most one plus the writes of other clients; done means one atomic commit with the verdicts, and for readable replaced payloads the store, of one-at-a-time handling there; anything else means we wrote nothing; a parse failure only after another client stored a payload without queue |
| `Enqueue.CompactedAlone` | oxana/src/storage_internal.rs:584-679 | With nobody else writing, handling the compacted chunk and filling in the skips is handling the whole chunk |
| `Enqueue.CompactedOnce` | oxana/src/storage_internal.rs:584-606 | Whatever others write, no later Skip of a request writes an id that the request has written as unique |
| `Enqueue.SoundAfter` | oxana/src/storage_internal.rs:548-769 | Applying serialized envelopes keeps every stored payload naming its queue |
| `Enqueue.EnqueuePlain` | oxana/src/storage_internal.rs:558-582 | Ordinary envelopes are pipelined, payload before place; alone this is one-at-a-time handling, whatever is stored |
| `Enqueue.Prepare` | oxana/src/storage_internal.rs:584-679 | Compaction, snapshots and existence checks together: what they establish for the loop, whatever others write in between; fails exactly when a payload to be replaced cannot be parsed |
| `Enqueue.EnqueueChunk` | oxana/src/storage_internal.rs:548-769 | Alone: the same store and verdicts as handling the envelopes one by one, whatever else is stored, and a parse failure only when a payload to be replaced does not name its queue. Under interference: a chunk with unique jobs commits in one step, as one-at-a-time handling when the replaced payloads are readable there, or writes nothing |
| `Enqueue.NoSecondWriteAppend` | oxana/src/storage_internal.rs:534-546 | The promise against second writes carries over from chunk to chunk |
| `Enqueue.EnqueueList` | oxana/src/storage_internal.rs:534-546 | Chunks of 100: alone a request that is done equals one-at-a-time handling, with every key of the type its write needs, so that what is proved of places holds; under any interference no later Skip writes an id the request already wrote as unique |
| `Enqueue.TryEnqueue` | oxana/src/storage_internal.rs:488-503 | None is returned exactly when the envelope is a Skip whose id is stored; for a unique job, whatever others write, that is so at a single store, and in one atomic step there the job leaves the retries and its old queue and is once at the front of its queue, with all others where they were, when the replaced payload names its queue |
| `ProtocolSafety.StepKeepsInv` | oxana/src/storage_internal.rs:2199-2277 | Every step of every client keeps the invariant: one place per tracked job, each claim in the list of a process accounted for in its runtime, holders and permits together, heartbeats recent, sweeps safe |
| `ProtocolSafety.RunKeepsInv` | oxana/src/launcher.rs:82-145 | The invariant holds after every interleaving of the steps of any number of processes |
| `ProtocolSafety.ExactlyOnePlace` | oxana/src/storage_internal.rs:794-849 | In every run a tracked job, once placed and until it ends, is in exactly one of the queue lists, schedule, retry and processing lists, exactly once, with its payload; a finished one is nowhere |
| `ProtocolSafety.OneHolder` | oxana/src/dispatcher.rs:33-83 | In every run the claim of a tracked job is in the hands of at most one holder, over all processes and all holders within one; its process runs, the claim is once in its list, and has not been dropped as well |
| `ProtocolSafety.ListIsAccounted` | oxana/src/dispatcher.rs:45-83 | In every run each tracked job in the processing list of a running process is there once, and is either in its hands or dropped by it |
| `ProtocolSafety.FailureToCome` | oxana/src/runtime.rs:527-535 | A runtime that is not cancelled and has dropped a claim has a failure to come, which cancels it |
| `ProtocolSafety.NoOrphan` | oxana/src/coordinator.rs:64-100 | In every run every tracked job in the list of a running process is in the hands of a dispatcher, channel, batcher or task of it if and only if the runtime has dropped none of them; and it has dropped none while it is not cancelled and no failure is to come |
| `LateFailure.UnheldUntilFail` | oxana/src/dispatcher.rs:45-54 | In every setting there is a run in which a claim is in nobody's hands while its live runtime is not cancelled: between the drop of the claim and the failure |
| `ProtocolSafety.HoldersArePermits` | oxana/src/semaphores_map.rs:71-120 | In every run the holders of a queue are the permits in use, and the gate counts them |
| `ProtocolSafety.HolderNeedsGate` | oxana/src/dispatcher.rs:34-37 | In every run a holder comes to be only through a gate that is active and below its limit |
| `Claims.MoveKeepsSound` | oxana/src/coordinator.rs:64-100 | Whatever a runtime does on its own, permits and holders stay together, gates count them, and a dropped claim has a failure to come until the runtime is cancelled |
| `Claims.MoveKeepsAccount` | oxana/src/coordinator.rs:205-240 | No move gains or loses a claim: what leaves the hands of the runtime is dropped |
| `Claims.ActiveAreHolders` | oxana/src/semaphores_map.rs:71-120 | The permits of a queue in use are its holders |
| `Claims.NewHolderNeedsGate` | oxana/src/semaphores_map.rs:74-82 | A new holder comes from a check of an open gate |
| `ProtocolSafety.NoLiveProcessSwept` | oxana/src/storage_internal.rs:2466-2523 | In every run whatever a sweeper judges dead, recovers claims from or forgets has stopped |
| `ProtocolSafety.JudgedAreStopped` | oxana/src/storage_internal.rs:2479-2523 | Reading the lists before the process set, and the clock within `delay`, never condemns a live process |
| `ProtocolSafety.SweptIsStopped` | oxana/src/storage_internal.rs:2199-2277 | What a sweep goes through has stopped and holds nothing |
| `ProtocolSafety.EnqueueKeeps` | oxana/src/storage_internal.rs:559-581 | Storing and placing a fresh job keeps the invariant at each of the two commands |
| `ProtocolSafety.ClaimKeeps` | oxana/src/storage_internal.rs:835-849 | LMOVE moves one job to one process and one holder; when its answer is lost the claim is dropped at once, with a failure to come |
| `ProtocolSafety.EndKeeps` | oxana/src/storage_internal.rs:1023-1064 | Acknowledgment and burial release the claim together with the payload |
| `ProtocolSafety.FailKeeps` | oxana/src/storage_internal.rs:794-828 | A retry moves the claim to the retry set with its payload |
| `ProtocolSafety.AbsentKeeps` | oxana/src/storage_internal.rs:801-810 | Releasing or deleting a claim whose payload is gone touches no tracked job |
| `ProtocolSafety.RewriteKeeps` | oxana/src/storage_internal.rs:935-973 | Rewriting the payload of a held job keeps queue and place |
| `ProtocolSafety.LocalKeeps` | oxana/src/coordinator.rs:64-100 | Steps within a runtime, among them letting go of a claim and the later failure, move no job and lose sight of no claim |
| `ProtocolSafety.PromoteKeeps` | oxana/src/storage_internal.rs:1076-1109 | Promotion moves a job only if score and payload are still those that were read |
| `ProtocolSafety.RecoverKeeps` | oxana/src/storage_internal.rs:2214-2257 | Recovery of a claim keeps the invariant whatever happened since its payload was read |
| `ProtocolSafety.PingKeeps` | oxana/src/storage_internal.rs:1935-1952 | A first ping before the first claim makes later scans safe |
| `ProtocolSafety.LeaveKeeps` | oxana/src/launcher.rs:82-124 | Stopping before deregistering keeps every sweep safe |
| `ProtocolSafety.SweepStepKeeps` | oxana/src/storage_internal.rs:2466-2523 | Each step of a sweep keeps what it has read safe for every live process |
| `ProtocolSafety.TickKeeps` | oxana/src/storage_internal.rs:1935-1952 | Time passes only within the heartbeat gap of live processes and the delay of sweepers |
| `ProtocolEffects.AbandonedAreFound` | oxana/src/storage_internal.rs:2489-2523 | Whoever has a list when it is scanned and is no member when the members are read is judged dead, whatever steps come in between, and each of its claims can be recovered |
| `ProtocolEffects.JudgedExactly` | oxana/src/storage_internal.rs:2495-2520 | Judged dead are exactly the members with an old score and the lists whose process is no member |
| `ProtocolEffects.FirstInFirstOut` | oxana/src/storage_internal.rs:835-849 | Jobs of a queue are claimed in the order in which they were placed, over every run of our clients: after c claims the next one takes the job before the last c |
| `ProtocolEffects.ClaimedJobsEnd` | oxana/src/executor.rs:193-297 | Whoever may claim from a queue can bring the job at its end through the channel to each end of a task: acknowledged, retried with its payload and due time, or buried |
| `ProtocolEffects.StoredJobsArePlaced` | oxana/src/storage_internal.rs:559-581 | A stored job can be placed: at the front of the queue its payload names, or in the schedule with its score |
| `ProtocolEffects.PromotesExactly` | oxana/src/promote_scheduled.lua:10-17 | A due job moves to the front of its queue exactly if score and payload are those that were read; otherwise nothing changes |
| `ProtocolEffects.RecoversExactly` | oxana/src/resurrect_claim.lua:10-22 | A claim moves to the front of its queue, or its job is dropped, exactly if the dead process still holds it and its payload is the one read; otherwise nothing changes |
| `ProtocolEffects.HoldersStore` | oxana/src/retry_failed.lua:1-12 | What a holder writes is stored: its payload, the time of its retry, its burial |
| `ProtocolEffects.RecordsAre` | oxana/src/storage_internal.rs:1935-1952 | Only a ping, a departure and the last step of a recovery change the records of processes, each its own |
| `ProtocolEffects.RunGoesOn` | oxana/src/launcher.rs:82-145 | What is said of steps from a state on holds for the rest of every run that has come to that state |
| `TimingBound.TimingIsExact` | oxana/src/storage_internal.rs:2489-2510 | No live process is ever judged dead if and only if heartbeat gap plus delay is at most the threshold; otherwise a run that does so is constructed |
| `TimingBound.SlowRuns` | oxana/src/storage_internal.rs:2489-2510 | The run in which a slow sweeper falls behind two live processes can be taken, step by step |
| `Recovery.SegmentIsProcess` | oxana/src/storage_internal.rs:2512-2519 | The process id is read back from its list key exactly when it has no colon |
| `Recovery.DeadProcessIdsIn` | oxana/src/storage_internal.rs:2489-2523 | Reports a process if and only if a member of that name has a score older than the threshold, or a list of that name was found and no member has it; none twice |
| `Recovery.KeysOfProcesses` | oxana/src/storage_internal.rs:2512-2519 | Lists of processes without colons name different processes |
| `Recovery.RecoverProcess` | oxana/src/storage_internal.rs:2207-2265 | Without other clients every readable claim is moved: back to its queue once for each time it was held, or its job dropped; unreadable ones stay, and the record goes exactly when none is left |
| `Gate.QueueControl.constructor` | oxana/src/semaphores_map.rs:60-69 | A missing limit is one |
| `Gate.QueueControl.TryEnter` | oxana/src/semaphores_map.rs:74-82 | The locked section of acquire grants exactly when active and below the limit |
| `Gate.QueueControl.ApplyConfig` | oxana/src/semaphores_map.rs:87-94 | The fields after a change of configuration: the limit it names, or the old one if it names none, the named state, the counter as it was |
| `Gate.QueueControl.Leave` | oxana/src/semaphores_map.rs:103-107 | The whole new state after a release |
| `Gate.QueueControl.NotifyWaiters` | oxana/src/semaphores_map.rs:95-108 | Notification is a step of its own, after the lock |
| `Gate.StepKeepsInv` | oxana/src/semaphores_map.rs:71-120 | Each step keeps: counter equals permits, and no parked waiter is left without a notification |
| `Gate.RunKeepsInv` | oxana/src/semaphores_map.rs:71-120 | Through any resizes, pauses, abandoned waits and late notifications the counter is the number of permits, never above the highest limit ever set |
| `Gate.NeverSaturates` | oxana/src/semaphores_map.rs:103-107 | The saturating subtraction never saturates |
| `Gate.GrantedWhenOpen` | oxana/src/semaphores_map.rs:76-81 | A client gets a permit exactly by a check that finds the queue active and fewer permits than the limit in use |
| `Gate.FollowsConfig` | oxana/src/semaphores_map.rs:87-94 | In every run the queue has the state of the last configuration applied and the last limit that was named, or one if none was |
| `Gate.PausedAdmitsNobody` | oxana/src/semaphores_map.rs:74-94 | Once a queue is paused nobody gets a permit until a later configuration is active |
| `Gate.WaiterGetsIn` | oxana/src/semaphores_map.rs:71-109 | No lost wakeup: a parked waiter of an open gate gets in after the notifications already under way, without any further change |
| `Batcher.Route` | oxana/src/coordinator.rs:242-276 | Whenever batchers end, the batchers of a worker and queue, one after the other, get exactly the jobs for it, each once and in order |
| `Batcher.Router.Send` | oxana/src/coordinator.rs:256-275 | A failed send replaces the batcher that has ended and is tried again: the job is sent once, to an open batcher of its key, and none that had ended gets anything |
| `Batcher.Flush` | oxana/src/coordinator.rs:397-417 | Draining a closed channel: as specified by the step function |
| `Batcher.RunBatcher` | oxana/src/coordinator.rs:301-395 | The two loops do what the observation-by-observation specification says, for every sequence of events |
| `Batcher.Conserved` | oxana/src/coordinator.rs:301-440 | For every sequence of arrivals, timeouts, closing and cancellation the spawned batches and the pending jobs are the received jobs in order, sizes are 1 to the batch size, and nothing is pending on exit |
| `Batcher.FinishedStays` | oxana/src/coordinator.rs:319-383 | Nothing is taken after the batcher has returned |
| `Batcher.ShortBatches` | oxana/src/coordinator.rs:346-394 | A batch is short only because its timer fired or the batcher ended |
| `Batcher.TimerSpawns` | oxana/src/coordinator.rs:346-394 | When its timer fires everything pending is spawned, in order, as one batch |
| `Batcher.ImmediateBatches` | oxana/src/coordinator.rs:336-344 | With a zero timeout every job is spawned alone and at once |
| `Batcher.OneWorker` | oxana/src/coordinator.rs:105-118 | All jobs of a batch are for one worker and queue |
| `Execution.JobBatchFactory` | oxana/src/worker_registry.rs:79-110 | The decoded jobs in order and one report for each payload that does not decode, with its index; no job when none decodes |
| `Execution.ReportedOnce` | oxana/src/worker_registry.rs:88-99 | Exactly the payloads that do not decode are reported, each with its own error |
| `Execution.InvalidJobsByIndex` | oxana/src/coordinator.rs:521-534 | For reports in any order, repeated or out of range: an index in range keeps its first error, others are ignored |
| `Execution.Aligned` | oxana/src/coordinator.rs:455-512 | The i-th decoded job belongs to the i-th kept envelope; no job was decoded only if every envelope was invalid |
| `Execution.KilledOnce` | oxana/src/coordinator.rs:481-504 | Each envelope is either kept or killed, once |
| `Execution.KilledAreBuried` | oxana/src/coordinator.rs:485-497 | The burials gain exactly the killed envelopes, the latest first |
| `Execution.DeadListIsLatest` | oxana/src/finish_dead.lua:9-13 | Trimming the dead list at each burial leaves the latest of all burials, as many as the limit allows |
| `Execution.KilledLeaves` | oxana/src/finish_dead.lua:9-13 | A killed job is on top of the dead list with its error, has no payload and one claim less; no other job changes |
| `Execution.RetriedLeaves` | oxana/src/retry_failed.lua:10-12 | A retried job that is stored has one retry more, its error, no start and its due time; otherwise only the claim goes |
| `Execution.DeletedLeaves` | oxana/src/storage_internal.rs:975-1010 | A deleted job is nowhere, and no other job changes |
| `Execution.AcknowledgedLeaves` | oxana/src/finish_success.lua:10-13 | Acknowledged jobs have no payload, nothing is buried or retried, and no other job changes |
| `Execution.StartedLeaves` | oxana/src/storage_internal.rs:935-973 | The payloads of started jobs are stored, and nothing else changes |
| `Execution.StartingIs` | oxana/src/executor.rs:77-87 | A started job has its time, keeps its state only if its worker resumes, and is otherwise as it was |
| `Execution.WorkedLeaves` | oxana/src/job_state.rs:176-181 | What runs saves its state or loses its payload; nothing else changes |
| `Execution.BuriedWithError` | oxana/src/coordinator.rs:486-490 | Each killed envelope is an invalid one and carries the error reported for its index |
| `Execution.Runtime.Fail` | oxana/src/runtime.rs:527-535 | The first error is kept and the runtime is cancelled |
| `Execution.Runtime.Deliver` | oxana/src/coordinator.rs:78-83 | The next error of a task that has ended is noticed, and cancels the runtime |
| `Execution.Runtime.Kill` | oxana/src/storage_internal.rs:1023-1038 | A kill is carried out, or reported as failed and perhaps carried out; an answered one is carried out |
| `Execution.Runtime.HandleErr` | oxana/src/executor.rs:392-421 | Retry below the limit, burial at it; a failed call may or may not have been carried out |
| `Execution.Runtime.HandleAll` | oxana/src/executor.rs:247-263 | Transitions happen in order; the first that fails cancels the runtime and leaves all later claims; when every call is answered all are made |
| `Execution.Runtime.FinishBatchResult` | oxana/src/executor.rs:193-297 | The transitions of the outcome are made, or the runtime is cancelled; it is not when every call is answered |
| `Execution.Runtime.RunBatch` | oxana/src/executor.rs:49-150 | Nothing runs unless lengths agree; the i-th job runs with the i-th envelope as its context and under its own policy |
| `Execution.Runtime.Separate` | oxana/src/coordinator.rs:483-504 | Kept and killed envelopes by index |
| `Execution.Runtime.KillPending` | oxana/src/coordinator.rs:461-477 | A batch that cannot be built is killed as a whole, which releases all its claims |
| `Execution.Runtime.ProcessPendingBatch` | oxana/src/coordinator.rs:442-519 | For any batch build: what is killed, what runs with what, and the store that is left when nothing fails |
| `Execution.Runtime.RunBatchTask` | oxana/src/coordinator.rs:419-519 | Whether the batch can be built or not: every claim of it is released, or the runtime is cancelled, or the task ends with an error that is still to be noticed; no other claim is touched; every job that runs was decoded from its own envelope; when every call is answered the runtime goes on |
| `Execution.Runtime.DispatchOne` | oxana/src/dispatcher.rs:33-83 | A turn that ends well hands its claim on, or made none |
| `Execution.Runtime.Dispatch` | oxana/src/dispatcher.rs:33-166 | The only new claim is the one handed on, or the runtime is cancelled, or the dispatcher ends with an error that is still to be noticed; when every call is answered the next job is handed on |
| `Execution.Runtime.LoadPendingJob` | oxana/src/coordinator.rs:156-205 | A claim is loaded, left to recovery when cancelled, or deleted without payload |
| `Execution.Runtime.ProcessPendingJob` | oxana/src/coordinator.rs:207-240 | One job is run, or killed when it does not decode |
| `Execution.Runtime.RunJob` | oxana/src/coordinator.rs:125-240 | From the channel to its end the claim of a job is released, or the runtime is cancelled, or an error is still to be noticed |
| `Execution.RanReleases` | oxana/src/executor.rs:193-297 | Success, failure or panic: every claim of the batch is released |
| `Execution.BatchSettles` | oxana/src/coordinator.rs:442-519 | Killed and run envelopes together release all claims of the batch |
| `Serving.AfterTask` | oxana/src/coordinator.rs:419-440 | When a task ends, the claims it has not released are lost and all others stay accounted for |
| `Serving.BatcherObserves` | oxana/src/coordinator.rs:301-417 | The claims a batcher holds grow by exactly what it observes to arrive |
| `Serving.Coordinator.Receive` | oxana/src/coordinator.rs:125-205 | A claim taken from the channel goes on to the batcher or to a task of its own, or is erased with a missing payload, or is lost with an error to be noticed; its permit goes with it |
| `Serving.Coordinator.RunSpawned` | oxana/src/coordinator.rs:419-519 | After a spawned batch its permits are back and its claims are released, or lost with an error or a cancellation |
| `Serving.Coordinator.Pop` | oxana/src/dispatcher.rs:33-83 | A dispatcher turns its permit and a claim into a job in the channel, or gives the permit back |
| `Serving.Coordinator.Serve` | oxana/src/coordinator.rs:54-100 | Gate, dispatchers, channel, batcher and tasks in any order of turns: while the runtime is not cancelled and no error is still to be noticed, the claims in Redis are exactly those held, each as often, but for ids erased with a missing payload; the gate counts one permit for each; and all turns together are acts that `Claims` allows |
| `Ledger.AsClaimsAllows` | oxana/src/coordinator.rs:54-100 | What serving a queue comes to is reached by a runtime of `Claims` from its very start, by moves, claims and settlements that it allows |
| `Ledger.LettingGo` | oxana/src/coordinator.rs:225-240 | A claim and its permit are dropped only with a failure to come or in a cancelled runtime |
| `Ledger.Ending` | oxana/src/coordinator.rs:419-440 | The end of a task: each of its claims is given back or dropped, as many permits leave the gate and are notified |
| `Ledger.Missing` | oxana/src/dispatcher.rs:45-54 | A claim whose answer is lost is dropped, with its failure, and the permit goes back |
| `Ledger.InTurn` | oxana/src/coordinator.rs:64-100 | Allowed changes one after the other are allowed |
| `Retries.ReportsAreTrue` | oxana/src/executor.rs:299-332 | For a failed batch of different jobs: a reported will_retry is honoured if and only if the payload is still stored, with one more retry, a due time and the state stored by then; otherwise only the claim goes. A reported terminal one is buried once more, without payload |
| `Retries.BatchReports` | oxana/src/executor.rs:49-150 | The same for a whole run of a batch, whatever states are saved and payloads removed while it runs |
| `Retries.DueAgain` | oxana/src/executor.rs:299-345 | A failed job with retries left is due after the delay of its worker for this job and number of retries, or, after an error, after the delay that the settings put in its place |
| `Retries.FailuresFrame` | oxana/src/executor.rs:247-263 | A failed batch touches no other job |
| `Retries.AttemptEnds` | oxana/src/executor.rs:392-421 | What one run leaves of a job, for each way it can end |
| `Retries.RetryAccounting` | oxana/src/storage_internal.rs:794-828 | Over whole lives, with runs that vanish and are recovered: an unsuccessful job is alive exactly while it failed at most m times, its stored retries are its failures, and failure m + 1 buries it, once |
| `Retries.ExecutionsBounded` | oxana/src/executor.rs:392-421 | A job with limit m is executed to an end at most m + 1 times |
| `Throttle.Throttler.State` | oxana/src/throttler.rs:64-99 | What a poll trims and answers: the total, whether it is below the limit, and the time to wait |
| `Throttle.RefusalNamesTime` | oxana/src/throttler.rs:75-98 | Allowed exactly below the limit; a refusal names a time exactly if there is an entry, and that time is the age of the oldest plus the window |
| `Throttle.Throttler.Consume` | oxana/src/throttler.rs:29-57 | Every recorded entry stays and the cost is added at the time read first, so that the total grows by the cost; cost zero adds nothing; the key expires a window after PEXPIRE, unless its old expiry came before ZADD, which leaves the addition alone, or between the two commands, which leaves nothing |
| `Throttle.Throttler.PopWithThrottle` | oxana/src/dispatcher.rs:129-158 | With one dispatcher every job that is popped adds its cost to the total and drops no entry still in the window, and it is popped exactly if the poll allows it; otherwise the wait is what the poll said, or the fallback |
| `Throttle.SleepEndsRefusal` | oxana/src/throttler.rs:84-97 | Whoever sleeps alone for the time a refusal names finds an empty window, and is allowed exactly if the limit is positive |
| `Throttle.ExpiryAgrees` | oxana/src/throttler.rs:45-48 | The first expiry of a run that drops something trimming would keep, and only such a one, comes between an addition that is still in the window and its PEXPIRE |
| `Throttle.StepKeepsBounded` | oxana/src/throttler.rs:29-98 | Each step, ZADD and PEXPIRE being two, keeps the bound on recorded and owed units of every window |
| `Throttle.WindowBound` | oxana/src/throttler.rs:29-98 | In every run of k interleaved consumers the units charged in any half-open window of at most the configured length less the lag of checks are at most limit - 1 + k * maxCost, and k * maxCost more for each hasty expiry; none for limit zero |
| `ThrottleRuns.WindowIsExact` | oxana/src/throttler.rs:29-98 | The bound holds for all windows of a given length, in all runs without hasty expiry, if and only if the length is at most the window less the lag of checks |
| `ThrottleRuns.LateUnit` | oxana/src/throttler.rs:31-33 | For every longer window, the run that exceeds the bound |
| `ThrottleRuns.HastyExpiryExceeds` | oxana/src/throttler.rs:45-48 | For every window, every limit of at least two, every cost and number of consumers: a run with one hasty expiry in which a window of two microseconds holds all that WindowBound allows for it |
| `ThrottleRuns.HastyIffTwo` | oxana/src/throttler.rs:45-48 | An expiry can be hasty in some run if and only if the limit is at least two; below, WindowBound holds without any addition |
| `ThrottleRuns.CallIsSteps` | oxana/src/throttler.rs:29-98 | One call of the throttler is a sequence of the steps ReadClock, Check, Add, Refresh and Expire, with the same key, time and charged units; its expiry is hasty only between ZADD and PEXPIRE |
| `ThrottleRuns.CallsAreRun` | oxana/src/throttler.rs:29-98 | Any calls in order are a run of the transition system |
| `ThrottleRuns.CallsAreBounded` | oxana/src/throttler.rs:29-98 | Hence what a consumer charges by its calls in any window is at most limit - 1 plus one cost, and nothing for limit zero |
| `Throttle.StepKeepsAttended` | oxana/src/throttler.rs:45-48 | Each step keeps: an entry that outlives the expiry is that of a consumer that has still to refresh it |
| `Backoff.DelayInRange` | oxana/src/storage_internal.rs:319-322 | Every delay is between half of its ceiling and all of it |
| `Backoff.CeilingsGrow` | oxana/src/storage_internal.rs:307-342 | Ceilings never decrease and never exceed the maximum |
| `Backoff.CeilingDoubles` | oxana/src/storage_internal.rs:342 | The n-th ceiling is the initial one doubled n times, cut at the maximum |
| `Backoff.RetryWindowIs` | oxana/src/storage_internal.rs:287-296 | A configured window is used as it is; otherwise it is the least that is two seconds and twice each pool timeout |
| `Backoff.ClaimedConnection` | oxana/src/storage_internal.rs:280-344 | The loop ends; all sleeps fit the window; each was drawn below its own ceiling after a transient failure; the verdict is that of the attempt after them, and the loop gives up exactly when the deadline cuts the first attempt, or the next sleep and attempt, short |
| `Backoff.AttemptsBounded` | oxana/src/storage_internal.rs:308-343 | At most one attempt more than the window divided by half the initial backoff |
| `Backoff.ReadCeilings` | oxana/src/storage_internal.rs:857-878 | Ceilings of the payload read are 100, 200, 400, 800 and then 1000 milliseconds |
| `Backoff.GetClaimedJob` | oxana/src/storage_internal.rs:854-880 | The payload read ends within its window, with at most a hundred sleeps, each in its range, and gives up exactly when the next sleep and read do not fit |
| `Progress.JobState.UpdateProgress` | oxana/src/job_state.rs:176-181 | A write that fails may have been carried out |
| `Progress.JobProgressIterator.constructor` | oxana/src/job_state.rs:34-51 | A run starts at the stored cursor, zero when missing or negative |
| `Progress.JobProgressIterator.MarkCurrentCompleted` | oxana/src/job_state.rs:64-73 | The item is forgotten before the write, so a failed mark is not tried again |
| `Progress.JobProgressIterator.Next` | oxana/src/job_state.rs:53-62 | Position, stored cursor and reply of one call: the item at the cursor is handed out, and one already handed out is marked first |
| `Progress.CursorNeverDecreases` | oxana/src/job_state.rs:30-73 | Over any runs, calls and crashes the cursor never goes back |
| `Progress.NothingSkipped` | oxana/src/job_state.rs:53-73 | The cursor never passes an unfinished item; an item is handed out only when all before it are finished; a run that ends has finished all |
| `Progress.ResumesAtCursor` | oxana/src/job_state.rs:34-62 | The first item of a run is the one at the stored cursor |
| `Progress.MarkedIsFinished` | oxana/src/job_state.rs:64-73 | When every mark is stored the finished items are exactly those below the cursor |
| `Progress.OnlyInFlightRepeats` | oxana/src/job_state.rs:53-73 | When every mark is stored no finished item is ever handed out again |
| `Progress.LostMarkRepeats` | oxana/src/job_state.rs:64-73 | A run in which a mark is lost hands out a finished item again |
| `Results.Record` | oxana/src/result_collector.rs:48-65 | Each counter is the exact sum, or its maximum when the sum does not fit |
| `Results.SumBalanced` | oxana/src/result_collector.rs:48-65 | Processed is succeeded plus failed, panicked at most failed |
| `Results.SumCountsJobs` | oxana/src/result_collector.rs:48-65 | Each counter is the jobs of the results of its kinds; a panic counts as a failure as well |
| `Results.Collector.UpdateStats` | oxana/src/result_collector.rs:119-161 | Stored plus pending is recorded, for every queue, after one more result; the runtime is cancelled exactly when enough are processed |
| `Results.Collector.FlushResultStats` | oxana/src/storage_internal.rs:1644-1675 | Every pending tally is added to its own queue, whatever the order |
| `Results.Collector.FlushPendingStats` | oxana/src/result_collector.rs:203-231 | A flush moves pending to stored, or changes nothing |
| `Results.Collector.FlushBeforeExit` | oxana/src/result_collector.rs:163-175 | Metrics, then tallies, then queue lengths: a fatal error ends the flushes, and nothing is lost |
| `Results.Collector.RefreshQueueLengths` | oxana/src/result_collector.rs:233-265 | Exactly the queues that are not empty stay active |
| `Results.Collector.Run` | oxana/src/result_collector.rs:92-175 | Over any results and any failing flushes of tallies, metrics and queue lengths nothing is lost or counted twice; after last good flushes the store holds exactly what was recorded |
| `Metrics.RecordCounts` | oxana/src/metrics.rs:357-382 | Per kind of result, what each counter gains, up to its maximum, and which stay |
| `Metrics.JobMetricsBuffer.Record` | oxana/src/metrics.rs:348-383 | Stored plus pending is recorded, for every minute, worker and metric |
| `Metrics.JobMetricsBuffer.FlushEntry` | oxana/src/storage_internal.rs:1743-1754 | Each counter of an entry is added to its own field and to no other |
| `Metrics.JobMetricsBuffer.FlushJobMetrics` | oxana/src/storage_internal.rs:1735-1787 | All entries, in any order, each to its own fields |
| `Metrics.JobMetricsBuffer.FlushMetrics` | oxana/src/result_collector.rs:177-201 | After a good flush every field holds what was recorded for it; after a failed one nothing has changed |
| `Metrics.AggregateCounterHashes` | oxana/src/metrics.rs:448-528 | Totals, points and workers are the sums of the fields that belong to them, and there is a worker exactly if some field names it |
| `Metrics.TotalsAreMinutes` | oxana/src/metrics.rs:472-504 | Below saturation the totals of processed, failed, panicked and execution time are the sum over the minutes |
| `Metrics.TotalsAreWorkers` | oxana/src/metrics.rs:477-518 | and the sum over the workers, in whatever order they are listed |
| `Metrics.FilledCountsAddUp` | oxana/src/metrics.rs:182-191 | The successful, failed and panicked executions of the totals are the sum of those of the minutes exactly when no minute has any, or those without any have no job count to stand in for them; for sums of execution counts that do not wrap around |
| `Metrics.StandInExactly` | oxana/src/metrics.rs:180-191 | Job counts stand in for execution counts exactly when there are none, or when their unchecked sum is one or two times the range of a counter |
| `Metrics.FieldCounts` | oxana/src/metrics.rs:662-669 | A field written for a counter of a worker is read for that counter of that worker and for no other; a negative value counts as zero |
| `Metrics.HashIsRead` | oxana/src/metrics.rs:472-504 | Whatever the order in which a written hash is read, the sum for a counter is what its field holds |
| `Metrics.ReportedAsRecorded` | oxana/src/metrics.rs:448-528 | From buffer to report: what a worker did in a minute, recorded, flushed, read back and aggregated, is what the point of that minute says; its succeeded jobs are those of its successful results |
| `FieldCodec.ParsePrint` | oxana/src/metrics.rs:70-76 | Parsing undoes printing of numbers |
| `FieldCodec.MetricFieldRoundTrip` | oxana/src/metrics.rs:662-669 | For every worker name, colons, bars and digits included, and every metric, splitting the printed field gives both back |
| `FieldCodec.QueueMetricFieldRoundTrip` | oxana/src/metrics.rs:671-686 | The same for queue fields |
| `FieldCodec.MetricFieldInjective` | oxana/src/metrics.rs:70-91 | Different counters never share a field |
| `FieldCodec.MetricFieldsExact` | oxana/src/metrics.rs:74-86 | Exactly which fields are read as a counter of a worker: more bytes may follow the name, cut at a character |
| `FieldCodec.QueueFieldsExact` | oxana/src/metrics.rs:671-686 | Exactly which fields are read as a counter of a queue |
| `FieldCodec.RsplitOnceIs` | oxana/src/metrics.rs:663 | Splitting at the last bar is the only split without a bar on the right |

## Left out

- serde_json also reads a one-element array as a struct with one field, and stops at a nesting of 128; texts that rely on either are not modelled.
- `Snapshot.Parse` compares decoded key and queue as bytes; Unicode normalisation plays no part in the program either.
- The pool settings that disable retries of claimed connections: then it is one plain attempt.
- `Throttle`: rounding of PEXPIRE to the milliseconds of the Redis clock. The length of the wait after a refusal is not claimed to be minimal, and is not: the program adds the age of the oldest entry.
- `Execution.Runtime.HandleErr`: a write of another client between the payload read and the script of a retry.
- `Metrics.FilledCountsAddUp`: sums of execution counts beyond the range of a counter, at which a build with overflow checks panics; `Metrics.StandInExactly` says when the others go wrong.
- `Metrics.JobMetricsBuffer.Record`: the table by queue, which is recorded alike, and the histograms.
- `Metrics.JobMetricsBuffer.FlushJobMetrics`: the fields of the table by queue, which are flushed alike, and the histograms.
- `Metrics.AggregateCounterHashes`: the timestamps of the points, which are copied from the minutes, and the sorting of workers.
- `Serving.Coordinator.Serve`: one queue with one batcher; `Batcher.Route` tells which batcher a job goes to.
- Revival, restoration and wiping of dead jobs.
- The order of shutdown phases in the launcher enters as the condition that a process deregisters only after it has stopped.
- Cron schedules, queue discovery, rates and latencies, the dashboard operations, the web and MCP front ends, the macros, failure reporting and tracing.
- Redis networking, pools and task scheduling, beyond the arbitrary answers and interleavings above.
