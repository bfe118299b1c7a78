# Models and proofs for GRID's concurrent bookkeeping, parsers and config writes

The project models the parts of the launcher in which several threads, several commands or a
crash can meet: who may touch the library while it moves, which background passes run and what
they may publish, how work is admitted, counted and shed, how a wiki page is scanned, how a file
range is served, and how the configuration is written. `dafny verify dfyconfig.toml` checks all
of it.

Objects whose methods change fields are classes; the value a method leaves behind is named by a
step function, and the theorems are about runs of those steps. A protocol of several threads is
a transition system over its atomic operations; a run is a list of actions, and a theorem about
a run holds for every list. Where the code breaks its own promise, the step that breaks it is
named by a condition that can be read off the state before the step, and a lemma shows that the
promise survives the step, over everything that can follow, if and only if the condition is met.

| file | models |
|---|---|
| `LibraryGate.dfy` | the gate and its tickets |
| `LibraryProtocol.dfy`, `LibraryRuns.dfy` | any number of transfers, uploads, ticket holders and games against one mover, with crash and restart; the theorems over runs |
| `LibraryMove.dfy` | the move service as an object; each method is a run of the protocol |
| `UpdatePasses.dfy`, `UpdateResults.dfy` | the pass gate operation by operation; the generation guard |
| `UploadPool.dfy`, `FirmwareClaims.dfy` | one task per key under a semaphore; readers and a writer per directory |
| `LoadLimiter.dfy`, `ImageLoads.dfy`, `PrefetchQueue.dfy` | the two-lane limiter, the loads over it, the background prefetch queue |
| `PcgwScanner.dfy` | the two brace scanners and the page scan |
| `RangeServer.dfy` | range parsing, body streaming, head reading |
| `Config.dfy`, `ConfigWriter.dfy`, `ConfigRaces.dfy`, `ConfigStore.dfy` | load, migrate, save; writers with and without the lock, with failures, crashes and losses of power; the races of one writer without it |
| `EmulatorTable.dfy`, `ConfigIntegrity.dfy` | the emulator commands; what holds of the stored file over every run |
| `Text.dfy`, `Numbers.dfy`, `Wrappers.dfy` | trimming over Unicode's white space, folding over ASCII's letters; small arithmetic; result types |

## Where the code and its promises part

- `transfers_active` reads the pool first and the count second
  (`app/src-tauri/src/cloud_service.rs:294`), while the comments at `:249-252` and `:1021-1024`
  rely on a transfer being seen in one or the other. A hand-off between the two reads is seen in
  neither. `LibraryRuns.SlipBreaksExclusion` is the run; `SlipIsExact` says exactly when it
  happens; `ExclusionCountFirst` shows that the other order needs no assumption.
- `running` is cleared at `app/src-tauri/src/library_move_service.rs:817` and again by the drop
  guard at `:676-682`, and a run ends its row (`:770`, `:782`, `:790`) before it looks at the
  journal and the gate (`:792-808`). A run spawned between the two stores loses its flag; when it
  fails, a second run passes its ended row, finishes the move and opens the gate, a new move
  closes the gate and writes its journal, and the first run, which finds no journal when it looks,
  opens the gate over it. This breaks both exclusion and gate exactness, in every phase
  (`LibraryRuns.EarlySpawnIsExact`, `EarlySpawnBreaksBoth`). Without such a spawn `running` is
  true of every run that has not made its last store, so a spawn never meets a settling run
  (`RunningIsTrue`). Two runs never hold the row at once even so (`SingleRun`).
- A run that panics after its journal is deleted and before it opens the gate, in the engine or
  in `finish_run`, leaves the gate closed with no journal, and so does a start that panics between
  its close of the gate and its journal (`LibraryRuns.LatePanicIsExact`,
  `LatePanicBreaksExactness`, `StartPanicBreaksExactness`).
- A finisher in `should_rerun` can take a request that was recorded against another pass that has
  already begun (`app/src-tauri/src/update_service.rs:98-104`): `UpdatePasses.StealIsExact`,
  `TriggerIsLost`. A panicking pass can also leave a request without a pass: `PanicIsExact`,
  `TriggerIsForgotten`.
- `done` frees a slot even while the load's backend call runs (`app/src/lib/imageLoad.ts:245`,
  against the comment at `:207-212`): `ImageLoads.PrematureDoneIsExact`, `TwoCallsFromOneSlot`. This
  is the function's contract; its one caller, `app/src/lib/Image.svelte`, never calls `done` and
  releases the slot on the `<img>` events, when the call has settled.
- `queueBuild` promotes a waiting warm without draining
  (`app/src/lib/backgroundPrefetch.ts:134-137`), so a hovered card can wait beside a free slot
  during a scroll until the next drain: `PrefetchQueues.IdleSlotIsExact`, `UndrainedIsReachable`.
- A range whose numbers do not fit in 64 bits is answered with the whole file where section
  14.1.2 of RFC 9110 asks for a part of it or for a refusal: `RangeServer.RangeIsIntersection`.
- A save refuses the reserved name only in its exact spelling
  (`app/src-tauri/src/commands.rs:2102-2104`), while deleting and renaming fold names, so an entry
  called `<NONE>` drags the stored "no emulator" choices along:
  `EmulatorTables.MarkersAreExact`, `MarkerChoiceIsForgotten`.
- `apply_delete_emulator` keeps a RetroArch core only under the exact spelling of a remaining
  default key, while set-default respells the key and leaves the core: deleting an unrelated
  emulator can drop a platform's core (`EmulatorTables.CoresAreExact`, `RespellingLosesCore`,
  `SnesLosesItsCore`).
- The comment at `app/src-tauri/src/commands.rs:2238-2240` says that an upsert writes under a
  case-insensitive match's key; the code removes that key and writes under the new spelling
  (`:2263-2273`). The model follows the code.
- `modify_config` calls itself the only sanctioned way to change the config on disk
  (`app/src-tauri/src/config_write.rs:14-17`), but these load, change and save the same file
  without its lock, while it can be held: `crates/grid-core/src/session.rs:199-202`;
  `crates/grid-core/src/library/mod.rs:3502-3542`, `:3612-3650`, `:3674-3689`, `:3700-3705`;
  `crates/grid-core/src/autoconfig/mod.rs:641`, `:937`;
  `app/src-tauri/src/commands/setup.rs:176-179`, `:210-225`, `:272-278`. The comments at
  `app/src-tauri/src/config_write.rs:23-27` and `app/src-tauri/src/commands.rs:1284-1286` say that
  the emulator autoconfig does not touch the file; `crates/grid-core/src/autoconfig/mod.rs:641`
  saves it. All share one temporary file. One such writer beside one that takes the lock can lose
  the other's update, have an empty or a cut file renamed, or write into the live file
  (`ConfigRaces.UnlockedWriterLosesUpdate`, `UnlockedWriterTearsFile`, `UnlockedWriterCutsFile`,
  `UnlockedWriterTearsLiveFile`). Only the first key of the file is required
  (`crates/grid-core/src/config.rs:233`), so a cut text can parse and load as a configuration that
  nobody saved. `ConfigWriter.SpoilsIsExact` says which steps break that the file is the fold of the
  writes done, `TearsIsExact` which of them put a cut text that parses under the file's name, and
  `LockedFileIsTheFold` what the lock promises where all take it. In runs without the second kind
  a file that parses is the fold of some writes over the file as it was found (`TextsAreFolds`); in
  every run it is the fold of some writes over that file or over a cut text (`TextsFoldOnRoots`).
- `Config::save` calls itself durable (`crates/grid-core/src/config.rs:473`), but the rename is
  not flushed with the directory: a loss of power can take back whole changes, never part of
  one (`ConfigWriter.PowerLossTakesTheTail`). A crash of the process alone takes nothing back.

## Model

| member | source | states |
|---|---|---|
| LibraryGates.LibraryGate.Close | crates/grid-core/src/library/relocate.rs:2132-2223 | true exactly when the gate was open; a closed gate keeps its first reason |
| LibraryGates.LibraryGate.Enter | crates/grid-core/src/library/relocate.rs:2132-2223 | admitted exactly when the gate is open, and then counted as a ticket |
| LibraryGates.CloseKeepsFirstReasonAndTickets | crates/grid-core/src/library/relocate.rs:2132-2223 | closing twice keeps the first reason, revokes no ticket, admits nobody, and opening undoes it; dropping a ticket undoes the entry and opens nothing |
| LibraryRuns.Exclusion | app/src-tauri/src/library_move_service.rs:480-575 | from any startup, in every interleaving of single reads and writes, with crashes: while a journal exists no transfer is past the gate, no upload is in the window or the pool, and no ticket holder or game is inside, if no hand-off slips and no run is spawned early |
| LibraryRuns.ExclusionCountFirst | app/src-tauri/src/cloud_service.rs:293-296 | with the count read before the pool the same holds with no assumption about the hand-off |
| LibraryRuns.SlipIsExact | app/src-tauri/src/cloud_service.rs:1118-1138 | when the count reads zero, exclusion holds over everything that follows if and only if the pool, read empty before, is still empty |
| LibraryRuns.SlipBreaksExclusion | app/src-tauri/src/cloud_service.rs:293-296 | a run from a cold start, with one upload that is counted after the plan found nobody about and one move, that ends with the upload inside under a journal |
| LibraryRuns.GateExactness | app/src-tauri/src/library_move_service.rs:851-874 | over every run of start, resume, cancel, run end, relocate, crash and restart: with no operation and no job in progress the gate is closed if and only if a journal exists or the library is unreachable |
| LibraryRuns.EarlySpawnIsExact | app/src-tauri/src/library_move_service.rs:667-682 | in whatever phase, a spawn keeps gate exactness over everything that follows, and likewise exclusion, if and only if no drop guard's store of `running` is still to come |
| LibraryRuns.EarlySpawnBreaksBoth | app/src-tauri/src/library_move_service.rs:787-817 | from a start on a journal in any phase, one early spawn and no other hazard reaches a pending move with an open gate, and then a ticket holder inside |
| LibraryRuns.LatePanicIsExact | app/src-tauri/src/library_move_service.rs:480-819 | a panic of a run, before or after the end of its row, or of an operation under the control lock keeps gate exactness over everything that follows if and only if the gate is open, a journal exists, the library is unreachable, or an operation that has not yet read `running` as false leaves the gate to somebody else |
| LibraryRuns.LatePanicBreaksExactness | app/src-tauri/src/library_move_service.rs:674-759 | from a start on a journal in any phase, such a panic of a run is reached and leaves a locked library with no move |
| LibraryRuns.StartPanicBreaksExactness | app/src-tauri/src/library_move_service.rs:523-547 | from a start with no journal, a move that panics between its close of the gate and its journal is reached and leaves the same |
| LibraryRuns.SingleRun | app/src-tauri/src/library_move_service.rs:599-604 | in every run, hazards and all, whatever spawns a run finds none that still holds the row |
| LibraryRuns.RunningIsTrue | app/src-tauri/src/library_move_service.rs:817 | without early spawns `running` is true of every run that has not made its last store, at most one run settles, and no operation past its check of `running` meets a live run |
| LibraryProtocol.BootEstablishes | app/src-tauri/src/library_move_service.rs:315-342 | a process started on any journal satisfies every invariant |
| LibraryProtocol.StepKeepsMover | app/src-tauri/src/library_move_service.rs:480-819 | every step of any thread but an early spawn keeps: one holder of the row, one live run and `running` true of it, a closed gate wherever a journal or an unreachable root is, and what each stage of an operation or a settling run has read |
| LibraryProtocol.StepKeepsNoOrphan | app/src-tauri/src/library_move_service.rs:761-819 | every step but a late panic keeps: a closed gate has a journal, an unreachable root, or somebody on the way to open it |
| LibraryProtocol.StepKeepsRow | app/src-tauri/src/library_move_service.rs:503-512 | every step, hazards and all, keeps one holder of the Downloads row |
| LibraryProtocol.StepKeepsClients | app/src-tauri/src/cloud_service.rs:253-288 | every step keeps the count equal to the live guards, and what each stage of a start has learned about the clients |
| LibraryRuns.ClientsLeave | app/src-tauri/src/cloud_service.rs:253-288 | under a closed gate a run leads from any state to one with no client inside, counted or waiting and all else the same, so a drain can always succeed |
| LibraryProtocol.OpenGateAdmits | crates/grid-core/src/library/relocate.rs:2184-2193 | through an open gate a transfer, an upload up to its task and a launch under its ticket get in |
| LibraryProtocol.CrashLeavesJournal | app/src-tauri/src/library_move_service.rs:315-342 | a crash leaves the journal and nothing else, and the gate closed exactly if there is one |
| LibraryMoves.LibraryMoveService.constructor | app/src-tauri/src/library_move_service.rs:315-342 | the object built on a disk is the protocol's boot state: gate closed exactly when a journal exists |
| LibraryMoves.LibraryMoveService.StartUp | app/src-tauri/src/library_move_service.rs:375-443 | a run of the protocol; a lost root, or a commit whose recovery loses it, leaves the library unreachable and the gate closed; a recovered commit goes on to Cleanup; any other journal waits for a resume; all else is as it was |
| LibraryMoves.LibraryMoveService.Start | app/src-tauri/src/library_move_service.rs:480-575 | a run of the protocol; started exactly with a good plan, a reachable library, no run, row, journal, closed gate, game, pool task, transfer or install, drained, and the journal saved; an error exactly when only the save fails; each outcome fixes journal, gate, row and run |
| LibraryMoves.LibraryMoveService.ResumeMove | app/src-tauri/src/library_move_service.rs:579-615 | a run of the protocol; resumes exactly with a readable journal, a reachable library, no run and no row, and fixes every field either way |
| LibraryMoves.LibraryMoveService.CancelMove | app/src-tauri/src/library_move_service.rs:620-647 | a run of the protocol; each outcome exactly when: a live copy is flagged, a stopped one rolled back now, its journal gone and the gate open unless the library is unreachable; otherwise nothing changes |
| LibraryMoves.LibraryMoveService.RelocateLibrary | app/src-tauri/src/library_move_service.rs:892-998 | a run of the protocol; succeeds exactly for an unreachable library with no run, a readable journal and a relocation that works; a commit is then left to resume in Cleanup, anything else opens the gate; failure changes neither flag nor gate |
| LibraryMoves.LibraryMoveService.RunEngine | crates/grid-core/src/library/relocate.rs:1044-1062 | the loop over the phases is a run of the protocol; with a journal the first phase that does not succeed decides the outcome and what is left of the journal, and without one the run fails |
| LibraryMoves.LibraryMoveService.RunPhases | crates/grid-core/src/library/relocate.rs:1044-1062 | from the journal's phase on: the first phase that errs is what the journal still says and decides the error; cancelled exactly from Copy; finished exactly when every phase succeeds |
| LibraryMoves.LibraryMoveService.FinishRun | app/src-tauri/src/library_move_service.rs:761-819 | run alone, a run of the protocol step by step: row, journal, root, gate, store; a failure that lost the root closes the gate, and with no journal and a reachable library the gate opens; all else is as it was |
| UpdatePasses.PassGate.BurstDuringPass | app/src-tauri/src/update_service.rs:84-104 | any number of triggers during a pass make exactly one more pass |
| UpdatePasses.SinglePass | app/src-tauri/src/update_service.rs:84-104 | over every interleaving of the atomic operations, with panics, at most one pass owns the slot |
| UpdatePasses.NoLostTrigger | app/src-tauri/src/update_service.rs:182-206 | operation by operation, whenever nothing is in progress a pass has begun after every trigger, unless a request was stolen or a pass panicked over one |
| UpdatePasses.CallIsItsOperations | app/src-tauri/src/update_service.rs:84-104 | each whole call is its atomic operations run without interruption, and these are careful |
| UpdatePasses.NoLostTriggerAtomic | app/src-tauri/src/update_service.rs:84-104 | with each method atomic, no sequence of triggers and finishes loses a trigger |
| UpdatePasses.StealIsExact | app/src-tauri/src/update_service.rs:98-104 | a finisher may take the request without losing a trigger, over everything that follows, if and only if no other pass has begun or no trigger is outstanding |
| UpdatePasses.PanicIsExact | app/src-tauri/src/update_service.rs:309-331 | a pass may panic without losing a trigger if and only if none is outstanding or another thread is inside a gate method |
| UpdatePasses.TriggerIsForgotten | app/src-tauri/src/update_service.rs:309-331 | a run from the start reaches a pass with a request recorded against it; its panic loses the trigger |
| UpdatePasses.FinisherInTheGapIsReachable | app/src-tauri/src/update_service.rs:98-104 | a run from the start reaches the state in which the steal loses a trigger |
| UpdatePasses.TriggerIsLost | app/src-tauri/src/update_service.rs:98-104 | from that state the swap loses the third trigger |
| UpdateResults.UpdateService.StoreIfCurrent | app/src-tauri/src/update_service.rs:162-174 | stores exactly when no newer generation has begun |
| UpdateResults.NeverResurrects | app/src-tauri/src/update_service.rs:142-174 | over every interleaving of passes, clears and panics, nothing visible is older than a clear that has returned |
| UpdateResults.StepKeepsInv | app/src-tauri/src/update_service.rs:162-174 | no step replaces a visible result by an older one |
| UpdateResults.ResultMeans | app/src-tauri/src/update_service.rs:142-174 | a pass is published if and only if nothing overtook it; one that was overtaken changes nothing visible; a clear empties the map |
| UploadPools.AutoUploadPool.TriggerUpload | app/src-tauri/src/cloud_service.rs:116-141 | refused exactly when the key is in flight; otherwise the key is in flight and one task is queued under it |
| UploadPools.PoolAccounting | app/src-tauri/src/cloud_service.rs:95-171 | over all runs, with panicking tasks: in-flight is exactly the keys of queued and running tasks, each key in one of them, and running, returning and free permits add up to the cap |
| UploadPools.RefusedIffLive | app/src-tauri/src/cloud_service.rs:116-147 | in every reachable state a trigger changes nothing if and only if its key has a live task, any other key is queued, and an idle pool has every permit back |
| FirmwareClaims.FirmwareService.TryBegin | app/src-tauri/src/firmware_service.rs:232-239 | claims exactly when the directory admits it, and otherwise changes nothing |
| FirmwareClaims.AdmitsIffStaysCompatible | app/src-tauri/src/firmware_service.rs:232-239 | a claim is admitted if and only if it is new and the directory then still holds one whole-directory claim or any set of platforms |
| FirmwareClaims.StepMeans | app/src-tauri/src/firmware_service.rs:584-604 | a begin adds exactly the claim asked for, or changes nothing exactly when the claims would not stay compatible; a guard takes its own claim with it and no other |
| FirmwareClaims.ClaimsOverRuns | app/src-tauri/src/firmware_service.rs:584-604 | over all runs with guard drops, claims stay compatible and correspond one to one with live guards |
| LoadLimiters.LoadLimiter.Pump | app/src/lib/imageLoad.ts:93-99 | the grant loop ends in the closed form: a prefix of the near lane, then a prefix of the far lane |
| LoadLimiters.LimiterOverRuns | app/src/lib/imageLoad.ts:81-146 | for every sequence of acquire, release and setPriority: `active` and `activeFar` are the numbers granted and within bounds, each lane is in join order, and no slot is free while an eligible entry waits |
| LoadLimiters.GrantsInOrder | app/src/lib/imageLoad.ts:93-99 | whatever is granted joined before all still waiting in its lane, and a far slot is granted only with the near lane empty |
| LoadLimiters.JoiningMeans | app/src/lib/imageLoad.ts:100-137 | whoever acquires a slot or moves to the other lane joins that lane now and waits in it or is granted from it; any other slot, or one already in that lane, is not moved |
| LoadLimiters.ReleaseIsIdempotent | app/src/lib/imageLoad.ts:117-126 | a second release changes nothing |
| ImageLoads.BoundedBackendCalls | app/src/lib/imageLoad.ts:214-251 | with no done during a call: calls outstanding never exceed the granted slots or `max`, each holds its slot until it settles even if cancelled, and once every load is over the count is 0 |
| ImageLoads.CallbacksMean | app/src/lib/imageLoad.ts:214-251 | a load cancelled before its grant never calls; a call that settles frees its slot if it failed or was cancelled; a cancel frees it unless a call runs; a done always does |
| ImageLoads.StartAndWatchMean | app/src/lib/imageLoad.ts:214-220 | a load starts far; a watch moves it only while it waits in the other lane |
| ImageLoads.PrematureDoneIsExact | app/src/lib/imageLoad.ts:245 | a done keeps every call on a slot over everything that follows if and only if the load's own call is neither running nor about to start |
| ImageLoads.DoneDuringCallExceedsBound | app/src/lib/imageLoad.ts:245 | with one slot, a done during a call lets a second call run beside it |
| ImageLoads.TwoCallsFromOneSlot | app/src/lib/imageLoad.ts:214-251 | from an empty limiter of one slot a run reaches two calls at once |
| PrefetchQueues.QueueOverRuns | app/src/lib/backgroundPrefetch.ts:131-287 | in every reachable state: hovered entries first, warms in request order, keys distinct and recorded; over the cap only hovers; `inFlight` is the unsettled builds of the era and at most 3; no key is sent twice between two clears |
| PrefetchQueues.ShedIsOldestWarms | app/src/lib/backgroundPrefetch.ts:144-174 | shedding leaves the hovered block whole and takes a prefix of the warms |
| PrefetchQueues.IdleSlotIsExact | app/src/lib/backgroundPrefetch.ts:131-148 | an operation leaves a slot idle beside an entry the gate lets out if and only if it is a hover that promotes a waiting warm during a scroll with a slot free |
| PrefetchQueues.NeverIdleFromStart | app/src/lib/backgroundPrefetch.ts:242-277 | over every run from the start without such a hover, no slot idles at the end |
| PrefetchQueues.DrainEndsIdling | app/src/lib/backgroundPrefetch.ts:261-277 | after a new request, a settlement of this era or the end of a scroll no slot idles, whatever the state before |
| PrefetchQueues.DrainSends | app/src/lib/backgroundPrefetch.ts:251-277 | a drain takes entries off the front of the queue, each let out by the scroll gate, and sends every one that is not memoised, in order, each as a new unresolved build of this era under its key; nothing else changes |
| PrefetchQueues.RequestMeans | app/src/lib/backgroundPrefetch.ts:131-148 | a new request goes first if hovered and last if warm; the oldest warms over the cap are shed and forgotten; then the drain |
| PrefetchQueues.RepeatMeans | app/src/lib/backgroundPrefetch.ts:131-137 | a request that is nothing new changes nothing, but for a hover of a waiting card, which goes first |
| PrefetchQueues.SettleMeans | app/src/lib/backgroundPrefetch.ts:270-275 | a build of this era gives its slot back and the queue drains; one of an earlier era changes nothing |
| PrefetchQueues.AnswerMeans | app/src/lib/backgroundPrefetch.ts:36-45 | a path found is memoised at the end, the oldest dropped if the memo was full; an error memoises nothing; neither frees a slot |
| PrefetchQueues.ScrollMeans | app/src/lib/backgroundPrefetch.ts:242-248 | the end of a scroll drains the queue; its beginning only holds the warms |
| PrefetchQueues.DropMeans | app/src/lib/backgroundPrefetch.ts:154-174 | leaving a view drops every waiting warm and no hover, and forgets they were asked for |
| PrefetchQueues.ClearsMean | app/src/lib/backgroundPrefetch.ts:281-315 | a reset ends the era and keeps the memo and the builds still out; a clear of the memo forgets what was asked and what waits |
| PrefetchQueues.MemoOverRuns | app/src/lib/backgroundPrefetch.ts:36-45 | over every run the memo holds at most 64 paths |
| PrefetchQueues.UndrainedIsReachable | app/src/lib/backgroundPrefetch.ts:131-148 | two operations from the start the hover is possible, and then waits beside three free slots |
| PrefetchQueues.PrefetchQueue.DrainQueue | app/src/lib/backgroundPrefetch.ts:261-277 | the loop is the drain of `DrainSends` |
| PrefetchQueues.PrefetchQueue.QueueBuild | app/src/lib/backgroundPrefetch.ts:131-148 | the request step, which is what `RequestMeans` and `RepeatMeans` say |
| PcgwScanner.ExtractTemplateBlock | crates/grid-core/src/pcgw.rs:163-185 | the loop finds the end that `BlockEndIsFirst` and `WrittenIsRead` characterise, and the text up to it |
| PcgwScanner.SplitTemplateArgs | crates/grid-core/src/pcgw.rs:193-226 | the loop yields the split that `WrittenIsRead`, `BlockArgsAreWhole` and `SplitNeverNegative` characterise |
| PcgwScanner.BlockEndIsFirst | crates/grid-core/src/pcgw.rs:163-185 | the block ends at the first closing pair the scan meets at depth one, and there is none if the text ends first |
| PcgwScanner.SplitNeverNegative | crates/grid-core/src/pcgw.rs:193-226 | in every text, balanced or not, the splitter stays at depth zero or above: a stray closing pair is text |
| PcgwScanner.WrittenIsRead | crates/grid-core/src/pcgw.rs:163-226 | round trip: wherever a template of any nesting is written into a page, its end is found and its arguments are what stood between its own bars |
| PcgwScanner.ScannersAgree | crates/grid-core/src/pcgw.rs:163-226 | for every text, the splitter walks the inside of a returned block position by position as the block scanner did, at one depth less, never negative, ending at 0 |
| PcgwScanner.BlockArgsAreWhole | crates/grid-core/src/pcgw.rs:252-256 | every argument of a block is brace-balanced and splits no further, and joining the arguments with a bar gives the inside back |
| PcgwScanner.FindSavesIsFirst | crates/grid-core/src/pcgw.rs:81-82 | the search gives the first opening of a saves template at or after a position, or there is none |
| PcgwScanner.SavesOpening | crates/grid-core/src/pcgw.rs:81-82 | `{{Game data/saves`, followed by a bar, is such an opening |
| PcgwScanner.SpansAreTheScan | crates/grid-core/src/pcgw.rs:240-256 | the recursive scan yields a list of blocks if and only if these are whole templates in order, apart, with no opening passed over, up to an unbalanced one or the end |
| PcgwScanner.ParseWindowsSavePaths | crates/grid-core/src/pcgw.rs:240-274 | terminates with exactly the deduplicated expansions of the Windows rows of those blocks |
| PcgwScanner.RowIsRead | crates/grid-core/src/pcgw.rs:240-274 | a row written into a page gives the expansions of its arguments from the third on if it has three and the second is `windows` in any case, and no path otherwise; then the scan goes on after it |
| PcgwScanner.DedupKeepsFirsts | crates/grid-core/src/pcgw.rs:263-268 | no duplicates, the same paths, in the order of their first occurrence |
| RangeServer.ParseRange | app/src-tauri/src/media_server.rs:498-540 | for every header, malformed ones included, a slice is not empty and lies in the file, so the inclusive count cannot wrap |
| RangeServer.RangeIsIntersection | app/src-tauri/src/media_server.rs:493-540 | a well-formed range is answered with exactly the requested bytes of the file, and refused exactly when there are none, if and only if the numbers looked at fit in 64 bits; otherwise it is ignored |
| RangeServer.RangeIsIgnored | app/src-tauri/src/media_server.rs:498-512 | without the unit, with a comma or without a dash the answer is the whole file |
| RangeServer.RangeIsDecided | app/src-tauri/src/media_server.rs:508-540 | every other header, malformed ones included, by the texts around its first dash: ignored exactly for a position looked at that is no number or a last before the first, refused exactly for an empty suffix, an empty file or a first past the end, otherwise the slice from the first to the last cut to the file |
| RangeServer.ParseU64Means | app/src-tauri/src/media_server.rs:514-533 | a number is digits, or a plus sign and digits, below 2^64, and has their value; anything else is none |
| RangeServer.DecimalIsRead | app/src-tauri/src/media_server.rs:514-533 | every number written in decimal is read back |
| RangeServer.StreamBody | app/src-tauri/src/media_server.rs:330-356 | for every schedule of short reads the slice is written exactly; if the file shrinks, a prefix that ends where a read found the end |
| RangeServer.Serve | app/src-tauri/src/media_server.rs:248-303 | without a range header status 200, the length of the file and, unless the file shrinks, all of it; otherwise as the range says, the declared length fitting in 64 bits and being that of the slice, which the body equals or is a prefix of |
| RangeServer.ReadHead | app/src-tauri/src/media_server.rs:450-466 | returns the text of what precedes the first empty line if every read that ended before the line did ended below the cap and those bytes are a text, and nothing otherwise, for every decoding; the buffer stays within 8191 + 2048 bytes |
| RangeServer.SegmentationIndependence | app/src-tauri/src/media_server.rs:450-466 | for every split of the stream: a head ending within 8192 bytes is returned the same, one ending past 8191 + 2048 is refused |
| RangeServer.HeadIsExact | app/src-tauri/src/media_server.rs:450-466 | between the two bounds there is a head if and only if no read ended from the cap on to just before the end of the first empty line |
| RangeServer.FindEndMeans | app/src-tauri/src/media_server.rs:454 | the head ends where CR LF CR LF first stands |
| RangeServer.LastCutBefore | app/src-tauri/src/media_server.rs:459-464 | the read that completes the first n bytes began less than a read buffer before them |
| Configs.NormaliseIsIdempotent | crates/grid-core/src/config.rs:447-471 | loading twice is loading once; a load reports the stored limit if and only if it is not an unmarked 3, which becomes 10; nothing but the limit, its marker and the blank names changes |
| Configs.NonBlankMeans | crates/grid-core/src/config.rs:453-454 | the filter keeps entries one by one and in their order: of two lists together it keeps what it keeps of each |
| Configs.NonBlankOne | crates/grid-core/src/config.rs:453-454 | of one entry it keeps it if and only if its name is not blank |
| ConfigWriter.TextsFoldOnRoots | crates/grid-core/src/config.rs:447-491 | in every run of any mix of writers with and without the lock, whatever they spoil or cut: a file that parses is the fold of some writes that each succeeded on the ones before it, over the file as it was found or over a cut text |
| ConfigWriter.TearsIsExact | crates/grid-core/src/config.rs:475-491 | a step keeps a file that parses the fold of some writes over the file as it was found if and only if it is not a rename of a temporary file with a cut text that parses, a damaged write that parses into the file shown, or a loss of power that brings back or makes such a version |
| ConfigWriter.TextsAreFolds | crates/grid-core/src/config.rs:447-491 | over every run without such a step, whatever the mix of writers and whatever else they spoil, a file that parses is the fold of some writes over the file as it was found |
| ConfigWriter.SpoilsIsExact | crates/grid-core/src/config.rs:475-491 | a step of any writer keeps the file the fold of the writes done if and only if it is not a rename over a file other than the one loaded, a rename of a temporary file without the writer's own text, or a write into a file already renamed |
| ConfigWriter.FileIsTheFold | crates/grid-core/src/config.rs:475-491 | over every run without such a step, with failures, crashes and losses of power, the file is the fold of the writes done, each of which succeeded on what the ones before left, and so is every version a loss of power can bring back |
| ConfigWriter.LockedFileIsTheFold | app/src-tauri/src/config_write.rs:54-63 | if every writer takes the lock, the file is that fold in every run, in lock order |
| ConfigWriter.LockIsFreed | app/src-tauri/src/config_write.rs:54-63 | in every run in which all take the lock there is one writer, which can always go on unless its load or its change failed; when it ends, fails or dies the next can begin on the file as it is |
| ConfigWriter.ReadersSeePrefixes | crates/grid-core/src/config.rs:447-457 | in a run that spoils nothing a load without the lock sees, at any moment, the fold of a prefix of the final order; a crash of the process takes no write back |
| ConfigWriter.PowerLossTakesTheTail | crates/grid-core/src/config.rs:473-491 | a loss of power takes back exactly the last writes not yet flushed, the file is the fold of the rest, and after a flush none is taken |
| ConfigRaces.UnlockedWriterLosesUpdate | crates/grid-core/src/session.rs:199-202 | one writer with the lock and one without: both return, and the change of the first is gone |
| ConfigRaces.UnlockedWriterTearsFile | crates/grid-core/src/config.rs:479-491 | the second creates the temporary file between the first one's flush and rename: the file is empty and does not parse |
| ConfigRaces.UnlockedWriterCutsFile | crates/grid-core/src/config.rs:479-491 | the second's write fails half way before the first one's rename: whatever the cut text parses to is loaded, and is the fold of no writes |
| ConfigRaces.UnlockedWriterTearsLiveFile | crates/grid-core/src/config.rs:479-491 | the second writes into the file the first has renamed: the rename was fresh and the file is torn, whether it parses or not |
| ConfigWriter.StepKeepsInv | crates/grid-core/src/config.rs:475-491 | every step of any mix of writers keeps: each whole text on disk is the fold of its own writes over its own root, and a writer's own text is in the file it has open and nowhere else, flushed once it has flushed it |
| ConfigStores.ConfigStore.ModifyConfig | app/src-tauri/src/config_write.rs:54-63 | takes effect as a whole or not at all; its result is the change of what was loaded, or exactly the first error met; success writes that configuration and is a run of the writers' system |
| ConfigStores.ConfigStore.Save | crates/grid-core/src/config.rs:475-491 | an error at any step leaves the file as it was; success is a run of create, write, flush and rename |
| ConfigStores.ConfigStore.LoadFile | crates/grid-core/src/config.rs:447-457 | a missing file is the default, one that does not parse an error, and any other, a cut one that parses included, the normalised text |
| ConfigIntegrity.ChosenLimitSurvives | crates/grid-core/src/config.rs:459-471 | once a limit is chosen, 3 included, every later load reports it, whatever is written before and after, until the limit itself is changed |
| ConfigIntegrity.TableSurvivesEveryRun | app/src-tauri/src/config_write.rs:54-63 | in every run of writers with and without the lock, with crashes, in which no cut text that parses is shown, as long as each change keeps the table, a load at any moment finds it whole or finds no configuration |
| ConfigIntegrity.TableSurvivesCuts | crates/grid-core/src/config.rs:447-457 | in every run, cuts shown or not, the same holds as long as each cut text that parses still has a whole table |
| ConfigIntegrity.CutTableIsLoaded | crates/grid-core/src/config.rs:447-457 | with one unlocked writer any cut text can be what is loaded, and the table is then whole if and only if the cut left it so |
| ConfigIntegrity.CommandsKeepTable | app/src-tauri/src/commands.rs:1287-1296 | every emulator command, refused or not, and every load is a change of that kind |
| EmulatorTables.MutableConfig.ApplySaveEmulator | app/src-tauri/src/commands.rs:2092-2145 | remove, check, repoint and insert amount to a replacement in place or an append; on a duplicate the renamed entry is gone from memory |
| EmulatorTables.MutableConfig.ApplyDeleteEmulator | app/src-tauri/src/commands.rs:2185-2200 | the three retains in order are the deletion the lemmas are about |
| EmulatorTables.MutableConfig.SetDefaultEmulator | app/src-tauri/src/commands.rs:1670-1678 | refused exactly when unsupported, and then nothing changes; otherwise default, recorded core and cleared core together |
| EmulatorTables.UpsertMeans | app/src-tauri/src/commands.rs:2263-2273 | with distinct keys, one key is left for the platform, spelled as given, and no other platform is touched |
| EmulatorTables.RemoveMeans | app/src-tauri/src/commands.rs:2253-2261 | no key that folds like the platform is left, and no other is touched |
| EmulatorTables.TableOverRuns | app/src-tauri/src/commands.rs:2092-2251 | over every run of save, delete and set-default, names and keys stay distinct and every default but the marker names an existing entry |
| EmulatorTables.SaveRefusedIff | app/src-tauri/src/commands.rs:2097-2130 | a save is refused exactly for a blank name, the marker, or the name of an entry other than the renamed one, each with its own error |
| EmulatorTables.SaveMeans | app/src-tauri/src/commands.rs:2132-2144 | the entry replaces the renamed one in its place or goes to the end; exactly the defaults that named that one take the new name; nothing else changes |
| EmulatorTables.RenamedMeans | app/src-tauri/src/commands.rs:2108-2119 | a save renames the first entry with the old name, none for a blank one |
| EmulatorTables.RenameCarriesDefaults | app/src-tauri/src/commands.rs:2132-2144 | after a rename each default resolves to the entry it did before, or to the new one in its place; no entry moves |
| EmulatorTables.DeleteMeans | app/src-tauri/src/commands.rs:2185-2200 | the deleted name resolves to nothing, every other name as before; exactly the defaults that named it and the cores without a default are gone, and the rest keep their values; nothing else changes |
| EmulatorTables.KeptInOrder | app/src-tauri/src/commands.rs:2187-2189 | a delete keeps entries one by one and in their order: of two lists together it keeps what it keeps of each |
| EmulatorTables.KeptOne | app/src-tauri/src/commands.rs:2187-2189 | of one entry it keeps it if and only if its name does not fold to the deleted one |
| EmulatorTables.SetDefaultMeans | app/src-tauri/src/commands.rs:2213-2251 | the platform has one default, the trimmed name or the marker, and it resolves to the entry picked; other platforms keep theirs; an emulator that is not RetroArch leaves no core; no other field changes |
| EmulatorTables.SetDefaultCores | app/src-tauri/src/commands.rs:1670-1678 | other platforms keep their cores; RetroArch keeps the platform's core or records the first installed; any other pick leaves it none |
| EmulatorTables.SupportedIff | app/src-tauri/src/commands.rs:2213-2236 | a pick is accepted exactly if it is blank or names an entry that supports the platform |
| EmulatorTables.MarkersAreExact | app/src-tauri/src/commands.rs:2132-2139 | a save or a delete keeps every stored "no emulator" choice if and only if there is none or the name does not fold to the marker |
| EmulatorTables.MarkerChoiceIsForgotten | app/src-tauri/src/commands.rs:2102-2104 | such a name is accepted, and deleting it forgets a stored choice |
| EmulatorTables.CoresAreExact | app/src-tauri/src/commands.rs:2193-2199 | deleting another emulator keeps a platform's core if and only if core and default are stored under the same spelling |
| EmulatorTables.RespellingLosesCore | app/src-tauri/src/commands.rs:2193-2199 | from every whole table with no core stored for the platform, picking a supported RetroArch entry with an installed core under two spellings and deleting another emulator leaves the default and loses the core |
| EmulatorTables.SnesLosesItsCore | app/src-tauri/src/commands.rs:2193-2199 | one such configuration, for `SNES` and `snes` |

## Left out

- LibraryRuns.Exclusion: assumes that no hand-off slips between the two reads and that no run is spawned under a late store, because in the code's order it is false without; `SlipIsExact` and `EarlySpawnIsExact` give the exact conditions.
- LibraryRuns.GateExactness: assumes no early spawn and no late panic, because it is false without; the exact conditions are `EarlySpawnIsExact` and `LatePanicIsExact`.
- LibraryRuns.RunningIsTrue: assumes no early spawn; `EarlySpawnIsExact` gives the exact condition.
- LibraryProtocol.StepKeepsMover: what the head of `LibraryProtocol.dfy` names as one action (the stores of a spawn, the plan's look and the journal's write, a rollback's look and delete, a relocation's work on the journal) is not interleaved with other threads.
- UpdatePasses.NoLostTrigger: assumes no stolen request and no panic over a request, because it is false without; the exact conditions are `StealIsExact` and `PanicIsExact`.
- ImageLoads.BoundedBackendCalls: assumes no done during a call; the exact condition is `PrematureDoneIsExact`.
- RangeServer.RangeIsIntersection: covers `bytes=` ranges of RFC 9110's three single forms; other units, several ranges and malformed ones are ignored or, when they begin past the end, refused.
- PcgwScanner.ParseWindowsSavePaths: the expansion of one path is an arbitrary function; its variable table and its three regular expressions are not part of this model.
- PcgwScanner.WrittenIsRead: covers texts whose braces all belong to templates; `BlockEndIsFirst`, `ScannersAgree` and `BlockArgsAreWhole` cover every text.
- PcgwScanner.SavesOpening: one spelling of the opening; what else opens a template is the definition `SavesAt`.
- PcgwScanner.ScannersAgree: positions are characters, not bytes, and depths are unbounded where the code has 32 bits.
- EmulatorTables.TableOverRuns: covers the three commands; the autoconfig writers and the core picker also change these maps and are not part of this model. Names are folded over ASCII.
- EmulatorTables.MutableConfig.SetDefaultEmulator: whether a profile supports a platform, is RetroArch or has a core on disk is an arbitrary function.
- ConfigWriter.FileIsTheFold: assumes that no step spoils the file, because with the writers that skip the lock it is false without; the exact steps are `SpoilsIsExact`. A load reads one version of the file at once, a write is one step, and the text of a configuration is its value; serialisation is not modelled. The writers that skip the lock at startup, before the services, run alone and are not listed.
- ConfigWriter.ReadersSeePrefixes: assumes the same.
- ConfigWriter.TextsAreFolds: assumes that no cut text that parses is shown, because it is false without; the exact steps are `TearsIsExact`. What a cut or mixed text parses to is arbitrary: the text format is not modelled.
- ConfigIntegrity.TableSurvivesEveryRun: assumes the same, and that the changes of the writers outside `EmulatorTables` keep the table; `TableSurvivesCuts` drops the first assumption for cuts that leave the table whole.
- UpdateResults.NeverResurrects: the generation is unbounded where the code has 64 bits that wrap.
- LibraryMoves.LibraryMoveService.Start: runs alone, with the clients' state passed in; interleavings are the protocol's.
- The gate's condition variable and the ticket timeout: a start waits until the tickets are gone or gives up, whenever it likes.
- Commands that check the gate without a ticket or a count: exclusion does not cover them.
- What the move engine copies, verifies and rewrites: a phase ends, fails or is cancelled. Which path was lost is a yes or no.
- Installs in the Downloads queue: a start reads them as activity, but they are not among the clients of the protocol.
- Pool tasks dropped at shutdown, and the default gate before the services are wired together.
- The launch-once firmware gate: its check and its claim are separate steps and it claims nothing at most once.
- `createPathMemo`, observers, timers and the image elements.
- HTTP, the keyring, SQLite, events, logging and DTO mapping: plumbing around the above.
