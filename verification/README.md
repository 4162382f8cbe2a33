# A Dafny model of the Cortex STT service

This project models the parts of Cortex STT whose correctness is an argument rather than a
reading: the code that interleaves, the code that must survive a fault at any point, and the code
that converts between forms. Each file below is one component; methods follow the source's own
loops and updates, functions say what they leave behind, and lemmas say what that means.

| file | component |
|---|---|
| `Prelude.dfy`, `LittleEndian.dfy` | options and results, a stable sort, byte order |
| `VariantKeys.dfy` | a Variant and the flat key slots and pools are kept under |
| `DownloadQueue.dfy`, `DownloadProtocol.dfy`, `DownloadOwnership.dfy`, `DownloadProgress.dfy` | the download coordinator: slots, queue, cancel token; tasks, cancellers and completion tails interleaved; whose entry an entry is; what becomes of submissions and cancels |
| `Uninstall.dfy` | removing all Variants of a model while downloads come and go |
| `EngineManager.dfy`, `EngineProtocol.dfy`, `EngineGuarantees.dfy`, `EngineLostLock.dfy`, `EngineRuns.dfy`, `EngineCapacity.dfy`, `EngineOverfull.dfy`, `EngineRecency.dfy`, `EngineBuilds.dfy` | engine pools: eviction; acquires, loads, unloads and the idle watcher interleaved; fresh weights and what an overtaken load does to them; the limit on loaded models and what outgrows it; what was last used; who builds a model twice |
| `EnginePool.dfy` | one model's engine slots: permits, free list, rebuilds |
| `History.dfy`, `HistoryRuns.dfy`, `HistoryInterleavings.dfy`, `Retention.dfy`, `RetentionSweep.dfy` | rows paired with audio files under failing and stopped operations; orphans over whole runs and over every interleaving; retention policies; what a sweep leaves |
| `StreamSession.dfy` | a streaming session's slot, buffer and one history row |
| `JobStore.dfy` | asynchronous jobs: status changes, eviction, size |
| `TranscriptDiff.dfy` | the character diff |
| `WavHeader.dfy`, `BrowserWav.dfy`, `PcmSamples.dfy` | the RIFF scanner, the browser's WAV writer, sample conversions |
| `Base64Url.dfy` | raw API keys |
| `EvalScoring.dfy` | three computations of an evaluation run's figures |
| `SharedStreams.dfy` | reference-counted event streams in the web client |

Concurrent code is a state machine whose steps are the source's lock regions and atomic accesses; a
run is any sequence of enabled steps. What the model says of a run, it says of all of them. Clocks,
engine results, failing files and the order in which a hash map or an unordered query lists its rows
are inputs, and nothing is assumed about them.

## Where the code and its documentation differ

The model follows the code. For each difference the condition under which the documented property
holds is proved, in both directions where the property is an equivalence.

- **Freeing a download's slot.** The documentation of `finish` (`cortex-stt/src/model/download_manager.rs:367-370`)
  says a completion and a racing cancel never both free a slot. Entries are removed by Variant key,
  not by download: a failed download whose tail has passed its cancel check removes the entry of a
  retry claimed in between, with no canceller still running (`DownloadOwnership.FailedTailEvictsTheRetry`).
  A download given a slot holds its entry until it ends or is cancelled, whatever follows, exactly when
  nobody may still release its key at that step (`EntryIsKeptExactly`); the barrier of an Install and the
  releases of a key rest on that one entry alone (`InstallHoldsTheBarrier`, `ReleasesFreeTheirOwn`), and the
  slot bound and the queue order hold regardless (`QueueOverEveryRun`).
- **Waiting out a load.** `unload` documents that it waits for a load in flight
  (`cortex-stt/src/engine/manager.rs:350-353`), but `remove_model` drops the lock object that load holds
  when an eviction, an unload or the idle watcher removes the model, and a later unload is handed no
  lock or a new one. Locks are objects in the model for that reason. An unload overtakes a load when that
  load works from an older factory under another lock than the unload is handed. Over every run, an
  unload that overtakes no load is followed by fresh weights only (`NoStaleWeights`); from every
  reachable state, one that does overtake can be followed by stale ones (`StaleExactlyWhenOvertaken`),
  and such a state is reachable (`StaleWeightsAreReachable`).
- **The limit on loaded models.** It is said to be exceeded only when more distinct models are loading
  than it allows (`cortex-stt/src/engine/manager.rs:222-224`). That holds over every run in which no load
  gives up the reservation of a model that another load is still building (`CapacityOverEveryRun`), and
  over every run under a limit of one (`CapacityOfOne`). Two loads of one model, after its lock was
  dropped, share a reservation. After any run within the limit and without such a step, a step can lead to
  the limit being outgrown, by a continuation that is itself within it and without such a step, exactly
  when it is such a step and the limit is at least two (`OutgrownExactlyWhenDropped`). In
  `CapacityIsExceeded` more than two models end up resident under a limit of two.
- **One build per model.** Two requests racing on a model are said never to both build it
  (`cortex-stt/src/engine/manager.rs:262-264`). They do not over every run in which the table goes on
  handing out the lock of every load of that model yet to land (`BuildsOnce`). After any such run, a step
  can lead to two loads building it at once, or to one building it while it is loaded, by a continuation of
  the same kind, exactly when the step drops such a lock (`BuiltTwiceExactlyWhenDropped`), and the idle
  watcher can do so (`BuiltTwiceIsReachable`).
- **Engines always present.** The pool's comment that a slot is always occupied
  (`cortex-stt/src/engine/pool.rs:30-31`) holds of a slot exactly as long as no call on it has panicked
  with a factory that then fails or panics (`LostSlotsExactly`). Every slot can come to that
  (`EverySlotCanBeLost`); it then stays so (`LostSlotStaysLost`) and can still be handed out
  (`EverySlotIsHandedOut`).
- **A refused uninstall.** Removing a model is documented to leave every Variant installed when refused
  (`cortex-stt/src/model/install.rs:91-92`). It does exactly when a check or the first deletion refuses
  (`RefusalKeepsAll`): a download may start between a Variant's check and its deletion, and has another
  Variant gone already in `RefusalCanLoseOne`.
- **A failed create.** It is documented never to leave an orphan file
  (`cortex-stt/src/history/mod.rs:82-85`). It leaves one exactly when it stops while the file is being
  written, or stops with the file written and the row not in, or its write fails leaving part of the
  file, or both the insert and the compensating unlink fail (`CreateOrphans`). Such a file is never
  reclaimed, and nothing else orphans one, also when calls interleave at every file operation and
  statement (`OrphanIsForever`, `PairingOverEveryRun`, `OrphansOverEveryInterleaving`).
- **One row per session.** A session returned by `open_stream` whose `stream_begin` task panicked is
  closed, and no row is ever written for it (`EndedSessionRows`).
- **One set of figures.** The summary counts the first 2000 rows of a run, the run list all of them, and
  the grid up to the limit it is asked for, which the runs view sets to 5000
  (`cortex-stt/web/src/components/eval/runs-tab.tsx:160`). They agree exactly when the rows left out
  all failed (`SummaryAgreesExactly`, `GridAgreesExactly`).
- **Past the diff's limit** the output is returned as wholly the same, which explains the pair only if
  it is equal to the reference (`OverLimitExplains`).

## Model

| member | source | states |
|---|---|---|
| VariantKeys.ParseInvertsAsKey | cortex-stt/src/model/installed.rs:38-54 | reading a flat key back gives the same Variant exactly when the model id holds no colon |
| VariantKeys.AsKeyInvertsParse | cortex-stt/src/model/installed.rs:38-54 | every string is the flat key of what it parses to |
| VariantKeys.AsKeyInjective | cortex-stt/src/model/installed.rs:47-54 | distinct Variants have distinct slot keys |
| DownloadQueues.CancelToken.Cancel | cortex-stt/src/model/download_manager.rs:99-108 | a cancel wins from running and keeps having won; it never undoes a commit |
| DownloadQueues.CancelToken.Commit | cortex-stt/src/model/download_manager.rs:114-119 | a commit wins only from running |
| DownloadQueues.OneSideWins | cortex-stt/src/model/download_manager.rs:86-120 | over any sequence of calls either every cancel and no commit is told it won, or exactly the first commit is and nothing else |
| DownloadQueues.ClaimKeepsWellFormed | cortex-stt/src/model/download_manager.rs:193-208 | claiming keeps at most three slots, a queue only behind full slots, and active and pending Variants disjoint and without repeats |
| DownloadQueues.ReleaseKeepsWellFormed | cortex-stt/src/model/download_manager.rs:371-375 | freeing an entry keeps the same and hands the slot to the head of the queue, so the slot count falls only when nobody waits |
| DownloadQueues.DropKeepsWellFormed | cortex-stt/src/model/download_manager.rs:497-506 | dropping a queued request keeps the same |
| DownloadQueues.DownloadQueue.PopFront | cortex-stt/src/model/download_manager.rs:200-207 | the head of the queue becomes active under its key |
| DownloadQueues.DownloadQueue.TryClaimSlot | cortex-stt/src/model/download_manager.rs:333-361 | a Variant already active or waiting is refused and nothing changes; any other takes a slot under its key if fewer than three are taken, and joins the end of the queue otherwise |
| DownloadQueues.DownloadQueue.FreeSlot | cortex-stt/src/model/download_manager.rs:371-375 | an entry that is there goes and the head of the queue is promoted under its own key; one that is not changes nothing |
| DownloadQueues.DownloadQueue.SignalCancel | cortex-stt/src/model/download_manager.rs:494-535 | the first phase drops a queued request or signals the token of a slot's holder, leaving its entry in place; no other token changes |
| DownloadProtocol.StepKeepsInv | cortex-stt/src/model/download_manager.rs:333-435 | every step of a task, canceller or completion tail keeps the queue, record, order and accounting invariants |
| DownloadProtocol.RunKeepsInv | cortex-stt/src/model/download.rs:145-248 | so does every run, whatever the interleaving |
| DownloadOwnership.QueueOverEveryRun | cortex-stt/src/model/download_manager.rs:193-208 | in every reachable state: at most three active, a queue only behind three, no Variant twice, claims minus removals equals the active count, promotions in order of arrival minus cancelled requests |
| DownloadOwnership.FilesOverEveryRun | cortex-stt/src/model/download.rs:501-518 | in every reachable state: a renamed file belongs to a download whose commit won, it is renamed once and Installed once before its slot is released, and a cancelled download is neither renamed nor Installed |
| DownloadOwnership.TokenIsFinal | cortex-stt/src/model/download_manager.rs:98-120 | whoever wins a download's token keeps it over the rest of any run |
| DownloadOwnership.RenamedFileAwaitsInstall | cortex-stt/src/model/download_manager.rs:411-419 | a renamed file stays ready for its Install, whatever else runs, until the Install happens |
| DownloadOwnership.OwnershipStep | cortex-stt/src/model/download_manager.rs:363-375 | a step keeps every entry its own download's exactly when it lets no key enter that somebody may still release |
| DownloadOwnership.RunKeepsOwned | cortex-stt/src/model/download_manager.rs:381-435 | over a run without such an entry, every entitled download holds its entry and nobody is about to remove another's |
| DownloadOwnership.StepKeepsOwnership | cortex-stt/src/model/download_manager.rs:363-375 | whatever has happened to other keys, a step keeps a download's ownership of its entry unless it adds that entry while somebody may still remove the key |
| DownloadOwnership.RunKeepsOwnership | cortex-stt/src/model/download_manager.rs:381-435 | so over every run in which the download's own entry, when added, found its key uncontended |
| DownloadOwnership.EntryIsKeptExactly | cortex-stt/src/model/download_manager.rs:363-375 | from every reachable state, the download a step gives a slot holds its entry over every continuation until it ends or is cancelled exactly when its key was uncontended at that step |
| DownloadOwnership.InstallHoldsTheBarrier | cortex-stt/src/model/download_manager.rs:393-424 | while an Install runs for a download whose own entry was added uncontended, the active entry is its own and refuses a second request for the Variant |
| DownloadOwnership.ReleasesFreeTheirOwn | cortex-stt/src/model/download_manager.rs:363-375 | whatever a tail or a cancel is about to remove under a key whose holder was added uncontended is that holder's own entry |
| DownloadOwnership.EntitledDownloadsAreBounded | cortex-stt/src/model/download_manager.rs:185-191 | over a run that lets no contended key enter, at most three downloads are un-cancelled and unfinished outside the queue |
| DownloadOwnership.ContentionEvicts | cortex-stt/src/model/download_manager.rs:536-549 | in every reachable state, whenever a contended key enters, at most two further steps take the new download's slot away from it |
| DownloadOwnership.FailedTailEvictsTheRetry | cortex-stt/src/model/download.rs:190-248 | the family is reachable with no canceller in flight: a failed download's tail removes the entry of the retry |
| DownloadProgress.SubmissionIsRecorded | cortex-stt/src/model/download_manager.rs:333-361 | a submission changes nothing exactly when its Variant was active or waiting; otherwise its download holds the entry under its key, or is the last in the queue when three slots are taken, and every other record, entry and place stays |
| DownloadProgress.ParkedCanStart | cortex-stt/src/model/download_manager.rs:371-390 | from every reachable state every waiting request can come to hold a slot, however far back it is |
| DownloadProgress.CancelWithdraws | cortex-stt/src/model/download_manager.rs:494-506 | a cancel that meets a waiting request takes it out of the queue, the others keeping their order, and touches nothing else |
| DownloadProgress.CancelledWhileWaiting | cortex-stt/src/model/download_manager.rs:494-506 | in every reachable state, a request cancelled while it waits never starts, whatever follows |
| DownloadProgress.CancelStopsTheHolder | cortex-stt/src/model/download_manager.rs:507-535 | a cancel that meets a holder whose token is undecided leaves its entry in place, and over every continuation that download is neither renamed nor Installed |
| Uninstall.ModelInstaller.DeleteVariant | cortex-stt/src/model/catalog.rs:149-181 | a Variant with a download in flight or nothing on disk is refused, otherwise it goes unless its file cannot be removed |
| Uninstall.ModelInstaller.UninstallModel | cortex-stt/src/model/install.rs:93-128 | no targets, or one refused by its check, leaves everything installed; otherwise the two loops leave what checking all and then deleting one by one leaves, with a fresh look at the downloads each time |
| Uninstall.DeletesPrefix | cortex-stt/src/model/install.rs:124-128 | however the deletions end, what is gone is a front part of the list, none of it busy, missing or failing, and all of it exactly on success; any other answer is about the next one and says what is the matter with it |
| Uninstall.RefusalKeepsAll | cortex-stt/src/model/install.rs:89-128 | a refused removal leaves every Variant installed exactly when a check or the first deletion refused it |
| Uninstall.RefusalCanLoseOne | cortex-stt/src/model/install.rs:124-128 | any two installed Variants: a download of the second that starts after the checks makes the removal refused with the first one gone |
| Uninstall.SteadyIsAllOrNothing | cortex-stt/src/model/install.rs:89-128 | if no download starts between a Variant's check and its deletion, removal is all or nothing |
| EngineManagers.EngineManager.RemoveModel | cortex-stt/src/engine/manager.rs:59-66 | a pool goes together with its load lock |
| EngineManagers.EngineManager.LeastRecentlyUsed | cortex-stt/src/engine/manager.rs:233-237 | a least recently used model other than the incoming one, or none if there is no other |
| EngineManagers.EngineManager.ReserveSlot | cortex-stt/src/engine/manager.rs:225-256 | terminates having evicted least recently used models only, never the incoming one, no more than needed and enough unless none is left, and reserves the slot |
| EngineManagers.EngineManager.UsePool | cortex-stt/src/engine/manager.rs:186-194 | a lookup that finds a pool serves its weights and sets its last use to the clock, keeping the rest; one that finds none changes nothing |
| EngineManagers.EngineManager.UnloadRegion | cortex-stt/src/engine/manager.rs:360-369 | an unload removes pool and lock if the model is loaded |
| EngineManagers.EngineManager.EvictIdle | cortex-stt/src/engine/manager.rs:430-437 | the watcher removes exactly what it listed, without looking again |
| EngineManagers.EvictionCountIsForced | cortex-stt/src/engine/manager.rs:232-246 | however ties fall, the number of models evicted is the same |
| EngineRecency.LookTouchesWhenServed | cortex-stt/src/engine/manager.rs:186-209 | a look sets the model's last use exactly when it serves its acquire |
| EngineRecency.LastUseOverEveryRun | cortex-stt/src/engine/manager.rs:186-209 | in every reachable state a loaded pool's last use is the time its model last landed or last served an acquire, read off the run alone |
| EngineRecency.EvictsLeastRecentlyTouched | cortex-stt/src/engine/manager.rs:225-256 | in every reachable state, whatever an incoming load evicts last landed or served an acquire no later than any other model it keeps |
| EngineRecency.ReserveEvictsJustEnough | cortex-stt/src/engine/manager.rs:225-256 | a reservation removes pools, each with its lock, only when there is no room, no more than needed, never its own model's, and makes room unless nothing else is left |
| EngineProtocol.StepKeepsHolders | cortex-stt/src/engine/manager.rs:266-269 | every lock object has at most the one holder that says it holds it |
| EngineProtocol.LocksStep | cortex-stt/src/engine/manager.rs:59-66 | the table goes on handing out the lock of every load in flight exactly when the step drops no such lock |
| EngineProtocol.OneLoader | cortex-stt/src/engine/manager.rs:258-278 | while locks are current, two loads of one model are never both past the wait |
| EngineGuarantees.FreshStep | cortex-stt/src/engine/manager.rs:348-374 | a step keeps pools, loads, unloads in progress and answers fresh exactly when it begins no unload past a load of an older factory that works under another lock |
| EngineGuarantees.CurrentLocksAreWaitedFor | cortex-stt/src/engine/manager.rs:350-353 | an unload begun while the table hands out the lock of every load in flight overtakes none |
| EngineGuarantees.RunKeepsFresh | cortex-stt/src/engine/manager.rs:266-374 | over every run in which no unload overtakes a load: pools, loads, unloads in progress and answers are no older than the newest registration an unload has followed |
| EngineGuarantees.FreshOverEveryRun | cortex-stt/src/engine/manager.rs:348-374 | from the start, everything is fresh after every run in which no unload overtakes a load |
| EngineGuarantees.NoStaleWeights | cortex-stt/src/model/install.rs:66-80 | over every run whatever: once a registration and an unload that overtook no load have returned, every acquire begun afterwards is served that registration or a later one |
| EngineCapacity.OneLoaderDropsNone | cortex-stt/src/engine/manager.rs:258-278 | while one load per model is past the wait, no reservation is given up under another load |
| EngineCapacity.BuildingsStep | cortex-stt/src/engine/manager.rs:68-86 | every model being built stays in the set of reserved models exactly when the step gives up the reservation of none of them |
| EngineCapacity.CapacityOverEveryRun | cortex-stt/src/engine/manager.rs:213-256 | over every run that gives up no reservation of a model being built, loaded models and models being built never outnumber the largest limit or the models being loaded |
| EngineCapacity.CapacityOfOne | cortex-stt/src/engine/manager.rs:213-256 | over every run whatever under a limit of at most one, they never outnumber the models being loaded at once |
| EngineLostLock.LockComesFree | cortex-stt/src/engine/manager.rs:266-346 | whoever holds a load lock, some run of that caller alone gives it back |
| EngineLostLock.UnloadDoesNotWait | cortex-stt/src/engine/manager.rs:348-374 | an unload handed no lock, or another one than a load's, can return with that load where it was |
| EngineLostLock.OldLoadLands | cortex-stt/src/engine/manager.rs:334-345 | a load that has read a factory can land, and its pool is then the one handed out, whatever was registered since |
| EngineLostLock.OvertakingServesStaleWeights | cortex-stt/src/engine/manager.rs:348-374 | from every state in which an unload overtakes a load, a continuation returns from the unload and serves an acquire begun only then the replaced weights |
| EngineLostLock.StaleExactlyWhenOvertaken | cortex-stt/src/engine/manager.rs:348-374 | from every reachable state, an unload can be followed by stale weights exactly when some load of the model works from an older factory under another lock than the unload is handed |
| EngineLostLock.LostLockIsOvertaken | cortex-stt/src/engine/manager.rs:59-66 | any load whose lock the table no longer hands out is overtaken by the unload that follows the next registration |
| EngineRuns.StaleWeightsAreReachable | cortex-stt/src/engine/manager.rs:420-437 | a run from the start that serves replaced weights: the idle watcher drops the lock of a model that was unloaded and is loading again |
| EngineOverfull.DropUnreserves | cortex-stt/src/engine/manager.rs:80-86 | giving up the reservation of a model that another load is building leaves that load unreserved |
| EngineOverfull.UnreservedLoadExceeds | cortex-stt/src/engine/manager.rs:213-224 | from every reachable state with an unreserved load building and the models being loaded within a limit of at least two, a continuation that keeps to the limit and gives up no further model being built ends with one model too many resident |
| EngineOverfull.OutgrownExactlyWhenDropped | cortex-stt/src/engine/manager.rs:213-224 | after any run that kept to the limit and gave up no model being built, a step can be followed by such a continuation that outgrows the limit exactly when the step gives up a model being built and the limit is at least two |
| EngineOverfull.CapacityIsExceeded | cortex-stt/src/engine/manager.rs:222-224 | a run from the start with more than two models resident under a limit of two, though never more than two were being loaded |
| EngineBuilds.AimsStep | cortex-stt/src/engine/manager.rs:59-66 | the table goes on handing out the lock of every load of a model yet to land exactly when the step drops none of them |
| EngineBuilds.BuildsOnce | cortex-stt/src/engine/manager.rs:258-278 | over every run that drops no lock of a load of the model yet to land, the model is never built by two loads at once, nor while it is loaded |
| EngineBuilds.BuiltTwiceExactlyWhenDropped | cortex-stt/src/engine/manager.rs:258-278 | after any such run, a step can be followed by such a run that builds the model twice exactly when the step drops the lock of a load of it yet to land |
| EngineBuilds.BuiltTwiceIsReachable | cortex-stt/src/engine/manager.rs:430-437 | a run from the start in which the idle watcher drops the lock of a model being built, and a newcomer builds it too |
| EnginePools.ModelPool.PopFront | cortex-stt/src/engine/pool.rs:125-132 | a permit's holder takes the front index |
| EnginePools.ModelPool.PushBack | cortex-stt/src/engine/pool.rs:63-71 | a guard's index goes to the back |
| EnginePools.ModelPool.WithEngine | cortex-stt/src/engine/pool.rs:172-203 | a call changes its slot only by a panic, which replaces the engine, empties the slot or poisons its lock, and the caller is told which or panics too |
| EnginePools.RunKeepsPool | cortex-stt/src/engine/pool.rs:41-71 | over every run the free list and the live guards share out the slots, each once, and permits account for all of them |
| EnginePools.GuardsAreExclusive | cortex-stt/src/engine/pool.rs:102-139 | two live guards never share a slot, and no slot in use is on the free list |
| EnginePools.PermitFindsAnIndex | cortex-stt/src/engine/pool.rs:125-132 | the free list covers every permit granted and unused, so a caller with a permit always finds an index |
| EnginePools.LostSlotStaysLost | cortex-stt/src/engine/pool.rs:172-203 | a slot whose rebuild failed, or whose lock a panicking factory poisoned, stays so over the rest of any run |
| EnginePools.LostSlotsExactly | cortex-stt/src/engine/pool.rs:30-32 | over every run a slot is without an engine exactly when some call on it panicked and the factory then failed or panicked |
| EnginePools.SlotOverEveryRun | cortex-stt/src/engine/pool.rs:172-203 | over every run a slot holds the engine last built for it until the factory first fails, and from then on is empty after an error and poisoned after a panic |
| EnginePools.FirstInFirstOut | cortex-stt/src/engine/pool.rs:63-132 | over every run the slots handed out, followed by those free, are the slots in their first order followed by those given back, in order |
| EnginePools.EverySlotIsHandedOut | cortex-stt/src/engine/pool.rs:125-138 | from every reachable state every slot, with an engine or without, can be handed out once more |
| EnginePools.EverySlotCanBeLost | cortex-stt/src/engine/pool.rs:172-203 | from every reachable state every slot can lose its engine, to a factory that fails or to one that panics |
| TranscriptDiff.LcsIsUpperBound | cortex-stt/web/src/lib/transcript.ts:43-52 | no common subsequence is longer than the table's recurrence says |
| TranscriptDiff.LongestIsOptimal | cortex-stt/web/src/lib/transcript.ts:43-80 | a diff that keeps that many characters keeps a longest common subsequence: no other explanation keeps more |
| TranscriptDiff.FillTable | cortex-stt/web/src/lib/transcript.ts:44-52 | the flat 16-bit table holds the answer for every pair of suffixes |
| TranscriptDiff.WalkBack | cortex-stt/web/src/lib/transcript.ts:61-75 | following the table keeps an explanation of what is consumed that can still reach the optimum |
| TranscriptDiff.FlushRest | cortex-stt/web/src/lib/transcript.ts:76-77 | what is left of either side is marked as a difference |
| TranscriptDiff.DiffCharacters | cortex-stt/web/src/lib/transcript.ts:36-80 | up to 400 characters: same and removed text spells the reference, same and added the output, neighbours differ in kind, no part is empty, and the same text is as long as possible; past it: the output, unmarked |
| TranscriptDiff.OverLimitExplains | cortex-stt/web/src/lib/transcript.ts:39-41 | past the limit of 400 characters the result explains the pair exactly when they are equal |
| Retention.ByAgeSorts | cortex-stt/src/retention.rs:84-86 | oldest first, nothing lost |
| Retention.ExcessIsShortest | cortex-stt/src/retention.rs:108-117 | the prefix dropped leaves the rest within the limit, and one fewer would not |
| Retention.NeverUnsized | cortex-stt/src/retention.rs:91-100 | a disk limit never selects a candidate whose size is unknown |
| Retention.DaysExact | cortex-stt/src/retention.rs:67-77 | age retention selects exactly the candidates whose timestamp parses and lies more than 86400 seconds a day before the clock; zero days selects none |
| Retention.SelectExcessBySize | cortex-stt/src/retention.rs:95-119 | the loop drops exactly that shortest oldest-first prefix of the sized candidates |
| Retention.SelectExcessByCount | cortex-stt/src/retention.rs:80-89 | the oldest beyond the limit |
| Retention.SelectToDelete | cortex-stt/src/retention.rs:54-65 | each policy selects what its selector does |
| Retention.CountSettles | cortex-stt/src/retention.rs:79-89 | what a count policy leaves is the smaller of the limit and the number there were |
| Retention.DiskSettles | cortex-stt/src/retention.rs:91-119 | the sized candidates a disk limit leaves are the young end of the list, within the limit |
| Retention.SelectSettles | cortex-stt/src/retention.rs:54-119 | whatever the policy, selecting again from what remains selects nothing |
| Histories.StoppedDelete | cortex-stt/src/history/mod.rs:168-172 | wherever a delete stops no file is orphaned, and a fault-free retry ends where a fault-free delete would have |
| Histories.EveryStopIsClean | cortex-stt/src/history/mod.rs:168-235 | every state a delete or drop passes through, and its end, orphans no file |
| Histories.DeleteKeepsNoOrphan | cortex-stt/src/history/mod.rs:168-235 | a delete or drop orphans nothing, whichever unlinks fail and whether or not its statement does |
| Histories.DeleteKeepsNoDangling | cortex-stt/src/history/mod.rs:168-235 | rows go on claiming only files that exist exactly when the statement succeeded or no file was unlinked |
| Histories.FailedUnlinksKeepTheirRows | cortex-stt/src/history/mod.rs:361-394 | a row whose unlink failed keeps its path and file; every other row asked for is gone, or has lost its audio |
| Histories.DeleteTellsWhatWent | cortex-stt/src/history/mod.rs:188-211 | a delete's count is the number of rows that went; no row that stays changes, and none goes that was not asked for |
| Histories.DropTellsWhatWent | cortex-stt/src/history/mod.rs:217-235 | a drop's count is the number of rows that lost their audio path, none of them unasked, and nothing else of any row changes |
| Histories.RetryFinishesDelete | cortex-stt/src/history/mod.rs:188-211 | a retry without faults finishes a delete that had any |
| Histories.RetryFinishesDrop | cortex-stt/src/history/mod.rs:217-235 | a retry without faults finishes a drop that had any |
| Histories.CreateOrphans | cortex-stt/src/history/mod.rs:78-121 | a create that stops anywhere orphans a file exactly when it stops while writing, or with the file written and no row in, or its write left part of the file, or insert and compensating unlink both failed |
| Histories.CreateInserts | cortex-stt/src/history/mod.rs:86-121 | after a create that ran to its end its row is in the table exactly when the insert worked: the row asked for, with the file as its audio exactly when the recording was written, and then whole on disk; every other row and file is unchanged |
| Histories.History.TryRemoveAudio | cortex-stt/src/history/mod.rs:409-423 | a missing file counts as removed |
| Histories.History.RemoveFiles | cortex-stt/src/history/mod.rs:366-394 | one unlink at a time, collecting the ids free of a file, and every state on the way |
| Histories.History.Delete | cortex-stt/src/history/mod.rs:174-186 | one record: the disk, the answer and every state passed, for every fault |
| Histories.History.DeleteMany | cortex-stt/src/history/mod.rs:188-198 | a batch: the disk, the number of rows deleted and every state passed, for every fault |
| Histories.History.DeleteAll | cortex-stt/src/history/mod.rs:200-211 | everything: the disk, both counts and every state passed, for every fault |
| Histories.History.DropAudios | cortex-stt/src/history/mod.rs:217-235 | audio only: the disk, the number of paths cleared and every state passed, for every fault |
| Histories.History.WriteRecording | cortex-stt/src/history/mod.rs:92-106 | every size the growing file passes, and the end of the write: whole if it succeeds, and as far as it got if it fails |
| Histories.History.Create | cortex-stt/src/history/mod.rs:86-121 | the rows afterwards in plain terms, the answer, the disk and every state passed, in order, for every outcome of write, insert and compensation |
| Histories.History.SweepRecords | cortex-stt/src/history/mod.rs:298-314 | gather, select and delete; an error counts as nothing deleted |
| Histories.History.SweepAudios | cortex-stt/src/history/mod.rs:318-334 | gather, select and drop; an error counts as nothing dropped |
| Histories.History.RunRetentionSweep | cortex-stt/src/history/mod.rs:283-294 | the audio branch runs on what the record branch left, also when that failed |
| Histories.TriedAllRows | cortex-stt/src/history/mod.rs:366-394 | over a whole listing the loop's results are exactly the sets the operations are specified with |
| HistoryRuns.OrphanStep | cortex-stt/src/history/mod.rs:78-121 | from a history without orphans an operation, failing or stopped, leaves one exactly when it is a create that abandons its file |
| HistoryRuns.OrphanIsForever | cortex-stt/src/history/mod.rs:109-110 | no later create, delete or drop ever reclaims an orphaned file |
| HistoryRuns.PairingOverEveryRun | cortex-stt/src/history/mod.rs:168-172 | over every run of creates, deletes and drops, failing or stopped: no two rows share a file, and no file is orphaned exactly when no create abandoned one |
| HistoryInterleavings.StepKeepsInv | cortex-stt/src/history/mod.rs:78-235 | one file operation or statement of any call keeps files accounted for, rows apart, and what the deletes and drops in progress know true |
| HistoryInterleavings.OrphansOverEveryInterleaving | cortex-stt/src/history/mod.rs:168-172 | over every interleaving of creates, deletes, drops and sweeps, failing or abandoned anywhere: no two rows share a file, and a file is without a row exactly when its create is still going or gave it up |
| HistoryInterleavings.QuietHistoryHasNoOrphan | cortex-stt/src/history/mod.rs:168-172 | with no create in progress, no file is orphaned exactly when no create left one behind |
| HistoryInterleavings.StrayIsNeverReclaimed | cortex-stt/src/history/mod.rs:109-110 | a file on disk that its create gave up stays there without a row over the rest of every interleaving |
| HistoryInterleavings.AloneIsSpecified | cortex-stt/src/history/mod.rs:188-235 | a delete or drop whose steps run without interruption, in any order of its rows, leaves what the calls are specified with |
| HistoryInterleavings.CreateAloneIsSpecified | cortex-stt/src/history/mod.rs:86-121 | from every reachable state a create whose steps run without interruption, whatever fails, leaves what the call is specified with |
| RetentionSweeps.ListingIsUsage | cortex-stt/src/history/mod.rs:241-268 | the sizes of any listing add up to the usage of the files that rows claim, and of the whole audio directory when none is orphaned |
| RetentionSweeps.CountSweep | cortex-stt/src/history/mod.rs:296-314 | count retention leaves exactly min(n, total) rows, unchanged, none older than a deleted one |
| RetentionSweeps.DaysSweep | cortex-stt/src/history/mod.rs:296-314 | age retention deletes exactly the rows whose timestamp parses and lies before the cutoff |
| RetentionSweeps.DiskLimitFits | cortex-stt/src/history/mod.rs:316-334 | disk-limit retention leaves the files that rows claim within 1048576 bytes a megabyte, and the whole directory when none was orphaned |
| RetentionSweeps.DiskLimitDropsOldest | cortex-stt/src/history/mod.rs:316-334 | it takes audio from no row younger than one left with its audio |
| RetentionSweeps.DiskLimitIsShortest | cortex-stt/src/retention.rs:91-119 | it takes no more than it must: with the youngest chosen row spared, the limit would be exceeded |
| RetentionSweeps.AudioDaysSweep | cortex-stt/src/history/mod.rs:316-334 | age retention takes the audio of exactly the rows whose timestamp parses and lies before the cutoff |
| RetentionSweeps.AudioCountSweep | cortex-stt/src/history/mod.rs:316-334 | count retention leaves audio to exactly min(n, rows with audio), and takes it from no row younger than one left with it |
| RetentionSweeps.RecordsAreKept | cortex-stt/src/retention.rs:54-77 | no limit, zero days or a disk limit, which no record counts against: the record branch leaves the disk as it was and reports zero, whatever fails |
| RetentionSweeps.AudiosAreKept | cortex-stt/src/retention.rs:54-77 | no limit or zero days: so does the audio branch |
| RetentionSweeps.KeptForEver | cortex-stt/src/history/mod.rs:283-294 | a whole sweep under policies that keep everything changes nothing and reports nothing, whatever fails |
| RetentionSweeps.SweepMeetsBothLimits | cortex-stt/src/history/mod.rs:283-294 | a whole fault-free sweep under a count and a disk limit leaves min(n, total) rows and the claimed files, or all files when none was orphaned, within the limit, and reports the rows deleted |
| RetentionSweeps.SurvivorsThatFitAreSpared | cortex-stt/src/history/mod.rs:283-294 | the audio branch judges what the record branch left: if the files of the surviving rows fit the disk limit, none loses its audio, whatever the deleted rows took |
| RetentionSweeps.SecondSweepSelectsNothing | cortex-stt/src/history/mod.rs:274-294 | after a fault-free sweep under any two policies a second one at the same clock reading selects nothing |
| StreamSessions.RunKeepsInv | cortex-stt/src/transcriber.rs:535-742 | however its calls end, a session holds the slot exactly while open between calls, and attempts at most one history row |
| StreamSessions.EndedSessionRows | cortex-stt/src/transcriber.rs:660-742 | an ended session attempted exactly one row unless an engine call was abandoned, stream_begin's task panicked, or it was dropped open with no runtime; then none |
| StreamSessions.SlotComesBack | cortex-stt/src/transcriber.rs:676-697 | the slot of an ended session is in the pool, or with an engine task that brings it back |
| StreamSessions.BufferIsAccepted | cortex-stt/src/transcriber.rs:557-633 | the buffer is the accepted chunks in order, and a successful finalize hands exactly those on, with their length |
| StreamSessions.RowTellsAudio | cortex-stt/src/transcriber.rs:660-716 | whatever row a session attempts, its duration is that of the audio accepted until then |
| StreamSessions.BufferBound | cortex-stt/src/transcriber.rs:557-569 | over any chunking the buffer stays within 16 samples per millisecond of the cap plus 30 |
| StreamSessions.BoundIsReached | cortex-stt/src/transcriber.rs:786-805 | the bound is reached under every cap, and then even an empty chunk ends the session |
| StreamSessions.FeedOutcome | cortex-stt/src/transcriber.rs:557-585 | a feed past the cap ends the session as too long; otherwise the chunk is kept and only an engine error or panic ends it, with that row; a closed session is unchanged |
| StreamSessions.FinalizeOutcome | cortex-stt/src/transcriber.rs:589-649 | a finalize always ends the session: with the transcript of the whole buffer, or a row telling a timeout, an engine error or a panic |
| StreamSessions.LeavingOutcome | cortex-stt/src/transcriber.rs:654-742 | an abort records the error it is given, a drop that the client went away if a runtime is there to write it; both give the slot back |
| StreamSessions.OpeningOutcome | cortex-stt/src/transcriber.rs:289-318 | a refused opening leaves its error; a granted one starts empty and is open unless stream_begin's task was lost, streaming exactly when the engine can and its stream began |
| StreamSessions.EndIsFinal | cortex-stt/src/transcriber.rs:530-742 | whatever is called after a session has ended, the row it ended with stays its only one |
| StreamSessions.StreamSession.constructor | cortex-stt/src/transcriber.rs:289-318 | opening, with or without an engine stream, for every end of stream_begin |
| StreamSessions.StreamSession.RunOnEngine | cortex-stt/src/transcriber.rs:676-697 | the slot goes out with the call and comes back only if the caller hears of its end |
| StreamSessions.StreamSession.Fail | cortex-stt/src/transcriber.rs:661-671 | closed before the first wait, one failure row, slot released |
| StreamSessions.StreamSession.Feed | cortex-stt/src/transcriber.rs:557-585 | refused when closed, failed over the cap, buffered otherwise; an engine error fails the session |
| StreamSessions.StreamSession.Finalize | cortex-stt/src/transcriber.rs:589-649 | one row and the slot released for every end of the inference but an abandoned one |
| StreamSessions.StreamSession.Abort | cortex-stt/src/transcriber.rs:654-658 | an open session records the given error |
| StreamSessions.StreamSession.Drop | cortex-stt/src/transcriber.rs:700-742 | an open session records a disconnect if a runtime is there to write it |
| JobStores.StoreOverEveryRun | cortex-stt/src/job.rs:70-120 | in every reachable state the store holds at most max(max_jobs, peak in flight) jobs, and a completion time is set exactly on the terminal ones |
| JobStores.PeakWasReached | cortex-stt/src/job.rs:113-120 | the peak of that bound is a number of jobs that were once in flight together |
| JobStores.JobAgesOnce | cortex-stt/src/job.rs:113-252 | over any stretch of a run a job still there has changed at most once, from processing to stamped terminal, and one that was gone stays gone |
| JobStores.TerminalIsFinal | cortex-stt/src/job.rs:153-167 | once terminal a job never reads differently; a cancel is never overwritten by a result |
| JobStores.StatusChangesOnce | cortex-stt/src/job.rs:153-187 | a status changes at most once over a run, and only from processing |
| JobStores.ResultLands | cortex-stt/src/job.rs:159-167 | a worker's result and its time land exactly on a job still processing; no other job changes |
| JobStores.CancelEnds | cortex-stt/src/job.rs:173-187 | a processing job becomes cancelled at the given time, a terminal one goes, and no other job changes |
| JobStores.InsertKeeps | cortex-stt/src/job.rs:113-120 | an insert that does not panic puts its job in, and changes no other that stays |
| JobStores.InsertEvictsJustEnough | cortex-stt/src/job.rs:113-120 | an insert below the limit evicts nothing; a full store loses what has expired, and beyond that only terminal jobs and as many as leave it full |
| JobStores.SweepMakesRoom | cortex-stt/src/job.rs:224-252 | a sweep ends within its target unless only jobs in flight are left, and those all stay |
| JobStores.SweepSparesTheUnexpired | cortex-stt/src/job.rs:224-252 | everything expired goes; a job that has not goes only if the sweep leaves the store at its target or above, and not before an older terminal one |
| JobStores.SweepIsIdentity | cortex-stt/src/job.rs:224-252 | a sweep changes nothing exactly when nothing has expired and there is no excess or nothing to evict |
| JobStores.SkippedSweepIsIdentity | cortex-stt/src/job.rs:200-215 | the read-locked check never skips a sweep that would have done something |
| JobStores.OldestFirst | cortex-stt/src/job.rs:238-250 | dropping the first of the sorted terminal jobs evicts just enough, none younger than one that stays |
| JobStores.JobStore.SweepLocked | cortex-stt/src/job.rs:224-252 | the TTL pass, then the capacity pass, oldest terminal jobs first, or nothing if the cutoff panics |
| JobStores.JobStore.Insert | cortex-stt/src/job.rs:113-120 | a full store is swept to one below its limit first; if that panics, the job does not go in |
| JobStores.JobStore.Finish | cortex-stt/src/job.rs:159-167 | only a processing job takes a worker's result |
| JobStores.JobStore.Cancel | cortex-stt/src/job.rs:173-187 | a processing job is cancelled, a terminal one removed, and the answer says which |
| JobStores.ExpiresByAge | cortex-stt/src/job.rs:224-236 | a terminal job expires when it is at least as old as the TTL, except under a TTL too long to represent for a job completed within it; the attempt panics exactly under a representable TTL that reaches before the calendar |
| JobStores.JobStore.NeedsSweep | cortex-stt/src/job.rs:200-210 | the look under the read lock: it finds work exactly when the store is over its limit or a job has expired, and finding none a sweep would change nothing; or the cutoff panics |
| JobStores.JobStore.Sweep | cortex-stt/src/job.rs:200-215 | the look, and if it finds work the sweep of the write lock's clock |
| WavHeaders.ParseWavHeader | cortex-stt/src/audio/resample.rs:32-110 | terminates with every read in bounds, in the scan's result for every byte string |
| WavHeaders.ParsedIsThere | cortex-stt/src/audio/resample.rs:51-110 | whatever the input, a header that parses describes a fmt and a data chunk that are there, its offset within the input |
| WavHeaders.WellFormedParses | cortex-stt/src/audio/resample.rs:28-110 | every well-formed file with one usable fmt and one data chunk, in either order, among unknown odd-padded chunks, parses to that chunk's format and the samples' extent |
| WavHeaders.ChunksAreAt | cortex-stt/src/audio/resample.rs:51-93 | chunks written one after another stand where the scan looks for them |
| WavHeaders.WrittenFormatParses | cortex-stt/src/audio/resample.rs:72-84 | a format written with code 1 or 3 and any 16-bit channel count and depth, 32-bit rate, byte rate, block align and extension parses to exactly those numbers, in either order of the chunks |
| WavHeaders.PlacesInBytes | cortex-stt/src/audio/resample.rs:28-58 | chunks stand right behind the bytes of those before them |
| WavHeaders.BodyStands | cortex-stt/src/audio/resample.rs:51-93 | what the parsed extent covers in the file is the samples' own bytes |
| WavHeaders.BadFormatFails | cortex-stt/src/audio/resample.rs:72-84 | a fmt chunk that is too short or in another format is refused as that, wherever the samples are |
| WavHeaders.NothingKnownFails | cortex-stt/src/audio/resample.rs:94-110 | a file of unknown chunks has no format |
| WavHeaders.SamplesAloneFail | cortex-stt/src/audio/resample.rs:94-110 | samples without a format are refused for the missing format |
| WavHeaders.FormatAloneFails | cortex-stt/src/audio/resample.rs:94-110 | a format without samples is refused for the missing samples |
| WavHeaders.CodesAreLetters | cortex-stt/src/audio/resample.rs:32-58 | the numbers compared with are the four letters of each code, low byte first |
| BrowserWav.EncodeWav | cortex-stt/web/src/lib/audio.ts:87-116 | the browser's stores fill the file, each right behind the one before |
| BrowserWav.ParsesBrowserFile | cortex-stt/web/src/lib/audio.ts:95-107 | the server reads it as mono 16-bit PCM at offset 44, size and rate modulo 2^32 |
| BrowserWav.BrowserHeaderFields | cortex-stt/web/src/lib/audio.ts:95-107 | sizes, rates, frame and sample widths of the header, each where it belongs, modulo 2^32 |
| BrowserWav.SizeIsWhole | cortex-stt/web/src/lib/audio.ts:107-107 | the size read is whole exactly below 2^31 samples |
| BrowserWav.ServerHearsBrowser | cortex-stt/src/audio/resample.rs:119-130 | below 2^31 samples the server decodes as many samples in order, each within 2/32768 of the clamped original |
| PcmSamples.WriteInvertsDecode | cortex-stt/src/audio/wav_writer.rs:39-46 | decoding 16-bit audio and writing it again gives the same bytes, whatever they were |
| PcmSamples.QuantiseInvertsDecode | cortex-stt/src/audio/wav_writer.rs:40-45 | a decoded 16-bit sample quantises to itself |
| PcmSamples.QuantiseIsNearest | cortex-stt/src/audio/wav_writer.rs:40-45 | elsewhere the nearest storable value, saturating exactly beyond the last half step |
| PcmSamples.EncodeSamples | cortex-stt/src/audio/wav_writer.rs:34-50 | the writer's loop stores every sample scaled, rounded and clamped |
| PcmSamples.ShiftIsTwosComplement | cortex-stt/src/audio/resample.rs:197-204 | the 24-bit shift decode is the two's complement value |
| PcmSamples.DecodedInRange | cortex-stt/src/audio/resample.rs:169-219 | every integer decode lies in [-1, 1) |
| PcmSamples.DecodesExactly | cortex-stt/src/audio/resample.rs:160-219 | bytes decode exactly when the depth is 16, 24 or 32 and they are a whole number of samples, into as many samples; otherwise the error says which |
| PcmSamples.DecodesEachSample | cortex-stt/src/audio/resample.rs:169-219 | sample k is the two's complement value of its own bytes, low byte first, over 2^15, 2^23 or 2^31 |
| PcmSamples.BrowserErrorIsSmall | cortex-stt/web/src/lib/audio.ts:110-114 | the browser's truncation and the server's decode differ from the clamped sample by less than 2/32768 |
| PcmSamples.BrowserTruncates | cortex-stt/web/src/lib/audio.ts:110-114 | the browser truncates towards zero, by 32767 above it and 32768 below, and stores the ends for what is beyond them |
| Base64Url.Encode | cortex-stt/src/db/keys.rs:40-59 | the loop over chunks of three yields the encoding |
| Base64Url.EncodesBits | cortex-stt/src/db/keys.rs:36-59 | ceil(4n/3) letters of the alphabet, the k-th for the k-th six bits of the input |
| Base64Url.DecodeInvertsEncode | cortex-stt/src/db/keys.rs:39-59 | a strict decoder recovers every byte string |
| Base64Url.EncodeInvertsDecode | cortex-stt/src/db/keys.rs:39-59 | every text that decoder accepts is the encoding of what it decodes to |
| Base64Url.LettersAreValues | cortex-stt/src/db/keys.rs:37-37 | the alphabet is a bijection between 0..63 and its letters |
| Base64Url.LettersInOrder | cortex-stt/src/db/keys.rs:37-37 | capitals, small letters, digits, then - and _ |
| EvalScoring.RunAggregates | cortex-stt/src/eval/store.rs:754-799 | the fold over all cells gives every run the tally of its rows |
| EvalScoring.SummariseModel | cortex-stt/src/eval/mod.rs:704-722 | the counters of one model are the tally of its rows |
| EvalScoring.SummariseRun | cortex-stt/src/eval/mod.rs:681-763 | one tally per candidate over the rows listed |
| EvalScoring.GridIsTotal | cortex-stt/src/eval/mod.rs:557-586 | counting the grid's verdicts counts its rows |
| EvalScoring.RunListIsSummaryAndMissed | cortex-stt/src/eval/mod.rs:557-722 | the run list's figures are the summaries' plus those of the rows past the limit or of no candidate |
| EvalScoring.SummaryAgreesExactly | cortex-stt/src/eval/mod.rs:602-722 | run list and summary agree exactly when every row without error is among the first 2000 and of a candidate; the number scored alone decides |
| EvalScoring.GridAgreesExactly | cortex-stt/src/eval/store.rs:1127-1129 | run list and grid agree exactly when the grid's limit cuts off no row without error |
| EvalScoring.AllThreeAgree | cortex-stt/src/eval/compare.rs:1-21 | up to 2000 rows, all of candidates: the three agree and unchecked, correct, scored and results nest |
| EvalScoring.TalliesNest | cortex-stt/src/eval/compare.rs:19-26 | the figures of any rows nest, and nothing scored means every row failed |
| EvalScoring.FiguresCount | cortex-stt/src/eval/compare.rs:1-26 | the figures of any rows are the number of rows, of those without error, of those ruled right or, unruled, matching, and of the latter alone |
| SharedStreams.Client.OpenStream | cortex-stt/web/src/api/client.ts:164-170 | the URL's stream unless its connection is closed for good, and then a new one in its place |
| SharedStreams.Client.Subscribe | cortex-stt/web/src/api/client.ts:175-210 | counts the subscriber on that stream, disturbs no other, and owes it the last payload of its type |
| SharedStreams.Client.Cleanup | cortex-stt/web/src/api/client.ts:212-222 | once: uncounts the subscriber, closes and unmaps the stream if it was the last; again: nothing |
| SharedStreams.Client.BrowserCloses | cortex-stt/web/src/api/client.ts:164-170 | a connection the browser gives up keeps every invariant |
| SharedStreams.Client.Receive | cortex-stt/web/src/api/client.ts:190-199 | remembers a payload under its type |
| SharedStreams.Client.OpenIsInUse | cortex-stt/web/src/api/client.ts:150-223 | the client has closed a stream exactly when no subscription to it is left; an open one has some and is the map's |
| SharedStreams.Client.OneConnectionPerUrl | cortex-stt/web/src/api/client.ts:150-153 | at most one open connection per URL, over all streams ever made |

## Left out

- HTTP handlers, routing, authentication, WebSocket framing, Supervisor calls, the command line and the React components: plumbing or display.
- The speech engine, script conversion, resampling and WAV libraries, SHA-256 and SQLite: outcomes are parameters, tables are maps by primary key, and one SQL statement is one step.
- Streaming and resuming a download, `.part` files, free-space and hash checks: a download task only works, fails, stops, commits or renames.
- The progress board and its delayed clearing: a check-then-remove that is not atomic, so nothing is claimed of it.
- The time of deadlines, tickers and grace windows: a timeout or a tick may happen at any step.
- That idle models are still idle when the watcher removes them: it does not look again, and the model lets a used model go.
- Acquires abandoned while waiting for a load lock or between the steps of a load: only a build that fails or is abandoned is a step of its own.
- The timeout of a pool acquire: a caller without a permit simply has none yet.
- What a call on the history returns when others interleave with it: the methods state their results for a call that runs alone; over interleavings the files and rows are followed, not the counts.
- Whether a history row that was attempted reached the database: the count is of attempts, and a call abandoned while writing one has attempted it.
- A query that a `LIKE` filter narrows, the previous-run comparison, latencies and coexistence figures of the summary, and a run's sample count: each is one query or one average, with nothing to prove beyond what it says.
- `normalise` behind the comparison of an output with its reference: the comparison is a parameter of the scoring model.
- Mixing to mono and resampling: averages and a library call. IEEE float samples are passed through unread.
- Config precedence, error-code tables, settings diffs, catalog display, byte ranges and chart statistics: tables and short formulas whose properties can be read off them.
- The microtask that replays the last payload to a late subscriber: the model says which payload is owed, not when it arrives.
- PcmSamples.QuantiseIsNearest: is stated over real numbers, because the rounding of 32-bit floats between scaling and rounding is not modelled; the same goes for every sample conversion.
- PcmSamples.BrowserErrorIsSmall: leaves out NaN, which the browser's conversion stores as zero, for the same reason.
- BrowserWav.EncodeWav: takes any number of samples, where the browser bounds an array's length.
- Retention.SelectExcessBySize: adds sizes without the overflow of a 64-bit sum; the limit's saturating product is modelled.
- StreamSessions.BufferBound: counts samples without the overflow of 64-bit milliseconds.
- WavHeaders.ParseWavHeader: takes positions as unbounded, which 64-bit addresses never exceed here.
- JobStores.JobStore.Sweep: has nothing happen between its check and its write lock. The two regions are specified on their own, each on whatever the store then holds (`NeedsSweep`, `SweepLocked`), and the step of a run is the one under the write lock.
- JobStores.JobStore.Insert: is stated for any job, while the runs insert processing jobs under fresh ids, as the only caller does (`cortex-stt/src/api/transcribe.rs:204-212`).
- TranscriptDiff.DiffCharacters: takes characters as given, without the code points the language splits a string into.
- SharedStreams.Client.OpenStream: has the browser's connection as part of the stream that alone refers to it.
