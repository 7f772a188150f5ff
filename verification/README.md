# Combustion archive and capture: a verified model

This project models, in Dafny, the parts of the Combustion integration whose correctness rests on
state kept over whole runs, and proves what they promise.

- **The cloud reconciliation ledger** (`Ledger`, `ArchiveInvariant`, `LedgerInvariant`,
  `LedgerRuns`, `LedgerFaults`, `LedgerPayloads`, `LedgerSchedule`, `LedgerClaims`,
  `LedgerDiscovery`, `LedgerChain`, `LedgerStall`, `Repository`). Remote sessions publish manifests
  (sets of inclusive sequence ranges); the archive claims one bounded unit of work at a time and
  commits sample rows, payload versions, merged coverage intervals, gaps and a receipt in one
  transaction, then schedules the next unit. `Ledger` gives the tables as values and each writer as
  one atomic step; `LedgerRuns` lets the steps come in any order, with any clock values, any
  responses and a fault before or after COMMIT. `Repository` is the class whose methods change the
  tables row by row, each proved to be one such step.
- **The interval algebra under it** (`Ranges`, `Chunks`, `Models`, `Sessions`, `Coverage`). Every
  interval routine is specified by one function, `Canon(s)`: the unique sorted list of disjoint,
  non-adjacent intervals that denotes the set `s`. Request planning is specified by `Plan(s, size)`.
- **The bounded local capture pipeline** (`Capture`, `CaptureInvariant`, `CapturePolicy`,
  `CaptureOrder`, `CaptureLosses`, `CaptureDrain`, `LocalCapture`): classes, coalescing,
  timers, the 256-slot queue with its class-aware drop policy, loss accumulators, the batching
  writer and the draining shutdown, with every callback, timer firing and await as a step.
- **The single-flight token lifecycle** (`Auth`, `AuthTimes`, `TokenLifecycle`) under interleaved callers.
- **The writer fence and FIFO drain** (`Fence`, `FenceInvariant`, `FenceOutcomes`, `Drain`,
  `ArchiveDatabases`) over any
  number of archive objects, writer threads and suspended calls.
- **The UART check sequence and framing** (`Uart`, `CrcRemainder`): the register of `crc16_ccitt` is a
  polynomial over GF(2) modulo x^16 + x^12 + x^5 + 1 (ITU-T V.41), and the check sequence the one
  remainder of the message under it.

A class's methods are the segments between two awaits. Each `ensures` that the new state is the
step function of the old one; the properties of runs are lemmas about those functions. What a step
decides (which payloads it stores, what it schedules and when, which class a record gets, how long
a token is reused) is stated a second time in plain numbers, apart from the step functions, in
`LedgerPayloads`, `LedgerSchedule`, `LedgerClaims`, `LedgerDiscovery`, `CapturePolicy`,
`AuthTimes`, `FenceOutcomes` and `CrcRemainder`.

## Properties that fail, and exactly when

Six promises do not hold of the code in every run. The code is modelled as it is; each has a
concrete run in which it fails and the exact condition under which it holds.

- *Every issued ordinal is committed, batched, queued, pending, coalesced or dropped.* `_new_record`
  takes the ordinal before it converts the two clock readings to integers, which raises on NaN and
  infinities. With finite readings the promise holds in every run that has not failed
  (`FiniteReadingsLoseNothing`); it holds if and only if every accepted observation's readings are
  finite (`AllHeldIffReadingsFinite`, `NonFiniteReadingLosesAnOrdinal`). Records that were built are
  always conserved (`OrdinalsArePartitioned`).
- *The records of a stream are sent in the order received.* A regular record that is due leaves at
  once, and an older one of its stream that is still pending, because its timer has not fired,
  follows it. A step keeps the order if and only if it does not overtake a pending record in this
  way (`OrderKeptIff`); runs without such a step keep every stream in order (`StreamsStayInOrder`),
  and the timer then queues the older record behind (`OvertakenIsSentLate`, `OvertakingHappens`).
- *Concurrent `token()` callers share one request.* A grant of one second is stale at once. A waiting
  caller is answered without a request if and only if the lifetime is at least two seconds
  (`NextCallerSendsNothingIff`, `ShortLifetimeRepeats`).
- *A live writer's path is always fenced.* An object can be started again while a failed start or a
  stop of the same object is still suspended; that call then gives up the new writer's guard.
  Launching a writer is safe in every continuation if and only if no such cleanup is suspended
  (`LaunchIsSafeIff`, `RestartDuringCleanupUnfences`).
- *Once start has returned, every accepted write runs before the writer closes.* A start that
  returns after a stop was requested opens intake behind the stop marker. A write accepted then has
  run by the time no writer serves the object, in every clean continuation, if and only if the
  start returned while a writer served the object and no stop was queued (`ReturnIsCleanIff`,
  `WriteBehindStopIsStranded`).
- *Serving a work unit makes progress.* A partial answer reschedules only its first missing run. The
  uncovered numbers of a manifest fall if and only if a commit stores a manifest number that was
  not stored before (`CommitShrinksWanted`); with full answers the whole plan is served
  (`FullAnswersServeThePlan`), and with empty ones the first missing run is asked for again for
  ever, each time by a new unit with no attempts used (`EmptyAnswersStall`).

## Model

All paths below `custom_components/combustion/`.

| member | source | states |
|---|---|---|
| Ranges.CanonicalPairwise | custom_components/combustion/cloud/models.py:182-190 | The canonical form used throughout is exactly: nonempty intervals, sorted, pairwise disjoint and pairwise non-adjacent |
| Ranges.CanonicalUnique | custom_components/combustion/cloud/models.py:182-190 | Two canonical lists that denote the same set are equal |
| Ranges.CanonIsMaximalRuns | custom_components/combustion/storage/repository.py:330-343 | The intervals of the canonical list of a set are exactly its maximal runs |
| Ranges.TotalLengthIsCardinality | custom_components/combustion/cloud/sessions.py:25-27 | Summing interval lengths of a canonical list counts the denoted numbers, without expanding them |
| Models.ParseRanges | custom_components/combustion/cloud/models.py:167-179 | A range array is accepted iff it is a list of at most 10,000 pairs of exact integers in range and in order; the result is those pairs, the error a schema error |
| Models.ValidMeans | custom_components/combustion/cloud/models.py:167-179 | What a valid array is in numbers: at most 10,000 ordered pairs of non-negative signed 64-bit integers |
| Models.NormalizeRanges | custom_components/combustion/cloud/models.py:182-190 | For any input the union is kept, and the result without rows that end before they start is the unique canonical form of the union |
| Models.NormalizedFacts | custom_components/combustion/cloud/models.py:182-190 | What the specification function of the loop means: separated rows, the same union, the canonical form once empty rows are dropped |
| Models.NormalFormIsStable | custom_components/combustion/cloud/models.py:182-190 | Normalizing is idempotent on everything whose normal form has no row that ends before it starts, and the identity on canonical lists |
| Models.BoundedChunks | custom_components/combustion/cloud/models.py:193-209 | The result is the whole request plan of the union, or a bounds error exactly when the size is out of range or the plan is longer than 10,000 |
| Models.ParseSampleChunk | custom_components/combustion/cloud/models.py:363-388 | A response is accepted iff it is bounded, in range and free of duplicates; then every row is returned once, ascending |
| Models.CollectAll | custom_components/combustion/cloud/models.py:379-388 | The row loop succeeds iff every row parses, lies in the request and repeats no sequence |
| Models.GoodMeans | custom_components/combustion/cloud/models.py:363-388 | What an accepted response is in numbers: a request of at most 1000 numbers, page 1 or none, at most 1000 rows inside the request, no sequence twice |
| Chunks.ChunksTile | custom_components/combustion/cloud/sessions.py:56-70 | The plan tiles the set: ascending disjoint pieces of at most the size, together denoting exactly the set |
| Chunks.ChunksAreFewest | custom_components/combustion/cloud/sessions.py:56-70 | No family of intervals inside the set, each of at most the size, that covers the set has fewer pieces than the plan |
| Chunks.ChunksTail | custom_components/combustion/storage/repository.py:255-271 | Serving the first piece leaves a set whose plan is the rest of the plan |
| Chunks.FirstChunkFacts | custom_components/combustion/storage/repository.py:255-271 | The next request exists iff something is wanted; it starts at the least wanted number, contains only wanted ones and ends at its run's end or the size |
| Sessions.ExpectedCount | custom_components/combustion/cloud/sessions.py:25-27 | The count is the cardinality of the union, overlaps counted once, less what rows of the normal form that end before they start take off |
| Sessions.MissingIntervals | custom_components/combustion/cloud/sessions.py:30-53 | For any expected ranges the result is the canonical list of expected minus present; it fails exactly on a non-integer or more than 10,000 distinct present numbers |
| Sessions.ChunkIntervals | custom_components/combustion/cloud/sessions.py:56-70 | The pieces yielded are the plan of the union (the same as the eager plan wherever that does not raise), or those of the rows before the first that ends before it starts or is out of bounds, and then a schema error |
| Coverage.SubtractCoverage | custom_components/combustion/storage/repository.py:235-252 | The result is the canonical list of the request minus the covered numbers |
| Coverage.MergeCoverage | custom_components/combustion/storage/repository.py:296-327 | Deleting the rows that touch the interval and inserting the merged one leaves the canonical rows of the enlarged coverage |
| Coverage.Contiguous | custom_components/combustion/storage/repository.py:330-343 | The result is the canonical list of the values, duplicates and order ignored |
| Coverage.FirstMissingChunk | custom_components/combustion/storage/repository.py:255-271 | The result is the first request of the plan for the uncovered manifest numbers; none iff the manifest is covered |
| Coverage.NextManifestChunkAfter | custom_components/combustion/storage/repository.py:274-293 | The result is the first request of the plan for the manifest numbers after the prior end; none iff there are none |
| Coverage.RangeByRangeIsWhole | custom_components/combustion/storage/repository.py:217-271 | Subtracting the meeting rows range by range over a normalized manifest lists exactly the maximal runs that missing_intervals computes from the explicit set |
| ArchiveInvariant.StatusMeaning | custom_components/combustion/storage/repository.py:1206-1240 | A sample is single with its version selected iff it has one version, conflict with none selected iff it has two or more |
| ArchiveInvariant.AbsorbedCoverage | custom_components/combustion/storage/repository.py:1116-1131 | A commit keeps each session's coverage rows canonical and equal to its stored sequences, and adds exactly the response's sequences |
| ArchiveInvariant.AbsorbedKeepsArchive | custom_components/combustion/storage/repository.py:1107-1254 | Exact coverage and agreeing samples and versions are kept by every commit |
| ArchiveInvariant.VersionsGrow | custom_components/combustion/storage/repository.py:1109-1240 | Versions and samples are append-only, and a conflict is permanent |
| ArchiveInvariant.CommittedCountsVersions | custom_components/combustion/storage/repository.py:1133-1196 | committed_rows is the number of versions the commit adds |
| ArchiveInvariant.MissingPlusPresent | custom_components/combustion/storage/repository.py:1256-1280 | missing_rows plus the samples present in the request make up the whole request |
| ArchiveInvariant.GapsAreMissingRuns | custom_components/combustion/storage/repository.py:1263-1314 | After a commit the open gaps of its session and manifest that meet the request are exactly the maximal runs of requested, absent sequences |
| ArchiveInvariant.OtherGapsKept | custom_components/combustion/storage/repository.py:1263-1277 | Gaps of another session or manifest, or away from the request, keep their state |
| LedgerInvariant.EnqueueKeepsInv | custom_components/combustion/storage/repository.py:179-214 | Enqueueing a fitting unit keeps the ledger invariant, the unique index over active units included |
| LedgerInvariant.DiscoverKeepsInv | custom_components/combustion/storage/repository.py:552-620 | Recording index items keeps the invariant; every known session stays on schedule |
| LedgerInvariant.CompletionKeepsInv | custom_components/combustion/storage/repository.py:877-1029 | Completing a manifest unit keeps the invariant and reschedules its session |
| LedgerInvariant.AuditFindsNothingMissing | custom_components/combustion/storage/repository.py:1256-1262 | A commit of an audit unit never finds a missing row, so its retry branch is unreachable |
| LedgerInvariant.StampMeansFullyAudited | custom_components/combustion/storage/repository.py:1375-1396 | A commit stamps a session only if the finished audit requests cover every number of the audited manifest |
| LedgerInvariant.CommitFollowUpFits | custom_components/combustion/storage/repository.py:1349-1388 | What a commit schedules is bounded, inside its manifest, and continues its audit chain |
| LedgerInvariant.CommitKeepsInv | custom_components/combustion/storage/repository.py:1059-1406 | Committing a sample or audit unit keeps the whole invariant |
| LedgerRuns.ApplyKeepsInv | custom_components/combustion/storage/repository.py:359-1406 | Every writer step, with any arguments and fault point, keeps the invariant; a manifest completion is handed manifest units only, as the workers do (custom_components/combustion/reconciliation/sync.py:194-209) |
| LedgerRuns.ReachableCoverage | custom_components/combustion/storage/repository.py:296-327 | In every reachable state a session's coverage rows are the canonical list of the sequences stored as samples |
| LedgerRuns.ReachableStamps | custom_components/combustion/storage/repository.py:1389-1396 | In every reachable state a stamped session has a manifest every number of which lies in a finished audit request |
| LedgerRuns.ReachableSamples | custom_components/combustion/storage/repository.py:1109-1240 | In every reachable state each stored sample has a version, and single or conflict says exactly how many |
| LedgerRuns.ReachableReceipts | custom_components/combustion/storage/repository.py:1322-1348 | In every reachable state a range unit is done iff it has exactly one receipt, and committed_rows sum to the stored versions |
| LedgerRuns.ReachableSchedule | custom_components/combustion/storage/schema.py:238-246 | In every reachable state each known session has exactly one active manifest unit, or a failed one |
| LedgerRuns.ReachableUnits | custom_components/combustion/storage/repository.py:840-860 | In every reachable state active units have distinct keys, failed units used up eight attempts, and range units are bounded, inside their manifest, and audits inside coverage |
| LedgerRuns.RunAdvances | custom_components/combustion/storage/repository.py:840-860 | No run undoes anything: done and failed are final, attempts never fall, versions, conflicts, coverage, manifests, receipts and stamps are only added to |
| LedgerRuns.StampWritten | custom_components/combustion/storage/repository.py:1375-1396 | Any step that changes a session's stamp is a commit of an audit unit whose manifest is then fully audited |
| LedgerFaults.FaultsLeaveAllOrNothing | custom_components/combustion/storage/repository.py:162-176 | Any mix of claims, failures, recoveries and faulty or repeated commits of one unit with one response leaves the tables untouched or as one clean commit leaves them |
| LedgerFaults.RepeatedAnswer | custom_components/combustion/storage/repository.py:1073-1096 | A done unit answers every later commit from its one receipt and changes nothing |
| LedgerFaults.EveryAnswerIsTheSame | custom_components/combustion/storage/repository.py:1398-1404 | Every commit that is answered, at any point of such a mix, reports the counts of the one clean commit |
| LedgerPayloads.StoredVersions | custom_components/combustion/storage/repository.py:1107-1196 | A response stores the session, sequence and payload hash of each of its rows, and no other version |
| LedgerPayloads.VersionsAreCommitted | custom_components/combustion/storage/repository.py:1059-1196 | Over every run the stored versions are exactly the payloads that some transaction of the run committed |
| LedgerPayloads.ConflictIffTwoPayloads | custom_components/combustion/storage/repository.py:1197-1240 | Over every run a sequence has a sample iff a payload was committed for it; the sample is a conflict with none selected iff two different payloads were, and else selects the one |
| LedgerPayloads.CountsAreRows | custom_components/combustion/storage/repository.py:1101-1240 | committed_rows counts the rows whose payload was not held, conflict_rows the rows whose sequence has two payloads in the archive and the response together |
| LedgerPayloads.CommitAnswers | custom_components/combustion/storage/repository.py:1064-1105 | When a commit changes the tables, and which error every other commit of a unit that is not done raises |
| LedgerSchedule.CompletionSchedules | custom_components/combustion/storage/repository.py:982-1009 | After a manifest check the numbers not stored are asked for from the least on; with none, the manifest is audited from its least number iff the session was never stamped or was stamped seven days ago or longer |
| LedgerSchedule.CompletionRechecks | custom_components/combustion/storage/repository.py:1011-1018 | A finished manifest unit is replaced by one due six hours later, beside at most one other new unit |
| LedgerSchedule.ManifestStored | custom_components/combustion/storage/repository.py:912-956 | A manifest is stored once, as the canonical list of the union of the ranges of its first check |
| LedgerSchedule.CommitSchedules | custom_components/combustion/storage/repository.py:1349-1388 | Requested numbers not stored are asked for again one hour later; otherwise a sample unit is followed by the first request of what is not stored, an audit unit by the first request beyond its own |
| LedgerSchedule.CommitStampsIff | custom_components/combustion/storage/repository.py:1374-1396 | Exactly the audit commit with no manifest number beyond its request stamps its session, with the time of the commit |
| LedgerSchedule.CommitFiles | custom_components/combustion/storage/repository.py:1322-1348 | A commit finishes its unit, files one receipt naming it and its request, and leaves every other unit alone |
| LedgerSchedule.FirstRequestUnique | custom_components/combustion/storage/repository.py:255-271 | What is asked for is determined: least number first, wanted numbers only, as long as that and 1000 allow |
| LedgerClaims.ClaimTakesFirst | custom_components/combustion/storage/repository.py:779-827 | A claim takes a unit iff it is due and no due unit of the account is earlier by priority, time due and age; then one attempt is counted and nothing else changes |
| LedgerClaims.ClaimSucceedsIff | custom_components/combustion/storage/repository.py:796-811 | Some unit can be claimed iff one is due |
| LedgerClaims.AttemptsAreStarts | custom_components/combustion/storage/repository.py:804-811 | Over every run the attempt count of a unit is the number of times it went from ready to running |
| LedgerClaims.EighthFailureEnds | custom_components/combustion/storage/repository.py:840-860 | Over every run a reported failure ends a unit iff eight or more attempts of it were started; otherwise it waits for the delay |
| LedgerClaims.RestartFreesUnits | custom_components/combustion/storage/repository.py:359-386 | After a restart nothing runs: interrupted units wait from now on and running discoveries are partial |
| LedgerDiscovery.PageRecords | custom_components/combustion/storage/repository.py:552-609 | A page adds exactly the sessions it mentions; known ones keep account, index id and stamp; an index conflict is recorded iff an item disagrees with the id kept |
| LedgerDiscovery.PageSchedules | custom_components/combustion/storage/repository.py:615-620 | A page schedules a manifest check, due at once, for each session it mentions that has none open, and no other work |
| LedgerDiscovery.PageAnswers | custom_components/combustion/storage/repository.py:511-550 | A page is accepted iff its run is open and its digest agrees with the one recorded, if any; a repeated page adds nothing, a new one counts the unknown sessions |
| LedgerDiscovery.PageAgain | custom_components/combustion/storage/repository.py:511-550 | Over every run an accepted page is accepted again without effect while its run is open, and refused with another digest |
| LedgerDiscovery.ClosedRunStays | custom_components/combustion/storage/repository.py:625-654 | A closed discovery run keeps its outcome over every run, and takes no page |
| LedgerDiscovery.CompletionAnswers | custom_components/combustion/storage/repository.py:880-1029 | When a manifest completion takes effect, and which error it raises otherwise |
| LedgerDiscovery.CompletionAgain | custom_components/combustion/storage/repository.py:886-905 | Over every run a completion that took effect, even with its answer lost, answers each repetition with its manifest as unchanged, without effect |
| LedgerDiscovery.UnchangedAfterwards | custom_components/combustion/storage/repository.py:908-916 | Over every run a stored manifest never changes and is never again reported as changed |
| LedgerChain.CommitShrinksWanted | custom_components/combustion/storage/repository.py:1242-1254 | The uncovered numbers of a manifest never grow, and fall iff the commit stores a manifest number not stored before |
| LedgerStall.EmptyAnswerRetries | custom_components/combustion/storage/repository.py:1349-1360 | An empty answer to a sample unit none of whose numbers is stored takes nothing from any manifest and schedules the same range again |
| LedgerStall.EmptyAnswersStall | custom_components/combustion/storage/repository.py:1349-1360 | A run of any number of empty answers after which both runs of a manifest are uncovered and the first is asked for again |
| LedgerChain.CompletionStartsChain | custom_components/combustion/storage/repository.py:982-992 | A manifest check schedules the first request of the plan for the uncovered numbers, and no sample unit if there are none |
| LedgerChain.FullAnswersServeThePlan | custom_components/combustion/storage/repository.py:1361-1374 | With full answers and nothing else touching the session, the sample units scheduled are the plan of the uncovered numbers in order, ending with the manifest covered |
| Repository.ArchiveRepository.EnqueueWork | custom_components/combustion/storage/repository.py:179-214 | Inserts the unit unless an active unit has its key, and says which |
| Repository.ArchiveRepository.AsyncRecoverInterruptedWork | custom_components/combustion/storage/repository.py:359-386 | Is one recovery step, counts the running units and leaves none running |
| Repository.ArchiveRepository.AsyncClaimWork | custom_components/combustion/storage/repository.py:779-827 | Claims a due unit no other due unit of the account precedes, or finds that none is due |
| Repository.ArchiveRepository.AsyncFailWork | custom_components/combustion/storage/repository.py:829-862 | Is one failure step: done units untouched, failed once the attempts are used up, else ready again later |
| Repository.ArchiveRepository.AsyncRecordDiscoveryPage | custom_components/combustion/storage/repository.py:499-623 | Is one discovery step with its idempotent and refused cases, and counts the sessions not known before |
| Repository.ArchiveRepository.AsyncCompleteManifest | custom_components/combustion/storage/repository.py:864-1029 | Is one manifest step with all error cases, for any record of a unit and any ranges; what that step schedules is the next row |
| Repository.CompleteCallSchedules | custom_components/combustion/storage/repository.py:982-1009 | A completion call that takes effect asks for the numbers not stored yet, or, with none, audits the manifest iff it was not stamped within seven days |
| Repository.ArchiveRepository.StoreRow | custom_components/combustion/storage/repository.py:1116-1240 | Adds the version of this session, sequence and payload hash, says whether it is new, and makes the sample row say what its versions imply |
| Repository.ArchiveRepository.StoreRows | custom_components/combustion/storage/repository.py:1106-1240 | Storing the rows in ascending order adds exactly the payloads of the rows, with the effect and the counts of the response as a set |
| Repository.ArchiveRepository.MergePresent | custom_components/combustion/storage/repository.py:1242-1254 | Merging run by run leaves the coverage enlarged by the present rows of the request |
| Repository.ArchiveRepository.RefreshGaps | custom_components/combustion/storage/repository.py:1263-1314 | Resolves the meeting gaps, reopens one per missing run, and counts the missing numbers |
| Repository.ArchiveRepository.ScheduleNext | custom_components/combustion/storage/repository.py:1349-1396 | Schedules the retry, the next sample request or the next audit request, or stamps the session |
| Repository.ArchiveRepository.LatestReceipt | custom_components/combustion/storage/repository.py:1077-1094 | Finds a latest receipt of the unit, or that it has none |
| Repository.ArchiveRepository.AsyncCommitSampleWork | custom_components/combustion/storage/repository.py:1059-1406 | Is one commit step with all error cases; a fault before COMMIT leaves every table as it was, one after it only loses the answer; what it stores is the next row |
| Repository.CommitCallStores | custom_components/combustion/storage/repository.py:1107-1196 | An answered call of a claimed unit adds the payloads of exactly its rows to the versions, and any other answered call adds none |
| Repository.CommitCallKeepsInv | custom_components/combustion/storage/repository.py:1059-1406 | Every such call keeps the ledger invariant |
| Repository.CompleteCallKeepsInv | custom_components/combustion/storage/repository.py:864-1029 | Every completion of a manifest unit, with any ranges and fault point, keeps the ledger invariant |
| Repository.StoredInOrderMeans | custom_components/combustion/storage/repository.py:1106-1240 | Row-by-row effects of rows with distinct sequences add up to the response's effect on samples, versions, committed and conflict counts |
| CaptureInvariant.OverflowPolicy | custom_components/combustion/local_capture.py:535-558 | A full queue gives up exactly one record, the first regular one counting the incoming one last, else the oldest; the others keep their order |
| CaptureInvariant.ApplyKeeps | custom_components/combustion/local_capture.py:162-685 | Every callback, timer firing, writer step and shutdown step keeps the pipeline invariant |
| CaptureInvariant.OrdinalsArePartitioned | custom_components/combustion/local_capture.py:475-625 | While capture has not failed, each built record is in exactly one place and nothing else is anywhere |
| CaptureInvariant.CleanRunsLoseNothingSilently | custom_components/combustion/local_capture.py:645-679 | A clean run has nothing left in flight; every record is committed, coalesced or counted in a saved gap; saved counts sum to the overflow drops and each gap's interval contains its losses |
| CaptureInvariant.NoLostWakeup | custom_components/combustion/local_capture.py:589-599 | A writer that waits with its event unset has nothing to do and nobody is stopping |
| CaptureInvariant.FiniteReadingsLoseNothing | custom_components/combustion/local_capture.py:475-625 | With finite clock readings the six places hold every issued ordinal, each once, while capture has not failed |
| CaptureInvariant.AllHeldIffReadingsFinite | custom_components/combustion/local_capture.py:475-499 | They do iff every accepted observation's readings are finite |
| CaptureInvariant.NonFiniteReadingLosesAnOrdinal | custom_components/combustion/local_capture.py:475-486 | One observation with a wall-clock reading that is not a number: its ordinal is held nowhere |
| CapturePolicy.ClassFollowsSignature | custom_components/combustion/local_capture.py:442-453 | Over every run the record of an observation is regular iff the latest earlier observation taken of its stream had the same signature, and a transition otherwise |
| CapturePolicy.ChangesAreQueuedAtOnce | custom_components/combustion/local_capture.py:178-186 | A transition or a prediction is the last of the queue when its callback returns, and its stream has nothing pending |
| CapturePolicy.RegularsAreSpaced | custom_components/combustion/local_capture.py:501-521 | A regular record leaves at once iff its stream emitted none within the last second; otherwise it is the one pending record of its stream and the one it replaces is coalesced |
| CapturePolicy.QueueTakes | custom_components/combustion/local_capture.py:535-558 | A queue with room takes a record at its end, a full one of 256 loses exactly one record, a closed one takes nothing |
| CapturePolicy.StopQueuesPending | custom_components/combustion/local_capture.py:652-657 | A stop queues the pending records in the order in which their streams began to wait |
| CapturePolicy.RecordedTimes | custom_components/combustion/local_capture.py:487-488 | Times are cut to whole micro- and nanoseconds, the monotonic one not below zero |
| CapturePolicy.CountersAreExact | custom_components/combustion/local_capture.py:162-176 | Over every run the dropped count is the records lost on overflow and the observations refused, the coalesced count the records replaced |
| CapturePolicy.Bounded | custom_components/combustion/local_capture.py:535-625 | Over every run at most 256 records are queued and a batch has 1 to 50 |
| CaptureOrder.OnlyRegularsWait | custom_components/combustion/local_capture.py:501-533 | Over every run only regular records are pending or coalesced, and a pending one is newer than every coalesced one of its stream |
| CaptureOrder.WriterSendsInOrder | custom_components/combustion/local_capture.py:589-625 | The writer takes records from the front of the queue and commits them in that order |
| CaptureOrder.OrderKeptIff | custom_components/combustion/local_capture.py:501-521 | A step keeps every stream in order, and nothing sent newer than what is pending, iff it does not send a due regular record while an older one of its stream is pending |
| CaptureOrder.StreamsStayInOrder | custom_components/combustion/local_capture.py:501-558 | Over every run without such a step the records of each stream are committed, batched and queued in the order received |
| CaptureOrder.OvertakenIsSentLate | custom_components/combustion/local_capture.py:501-533 | After such a step the firing timer queues the older record behind the newer one |
| CaptureOrder.OvertakingHappens | custom_components/combustion/local_capture.py:501-521 | A run of four advertisements that reaches such a step |
| CaptureLosses.GapsAreTheirLosses | custom_components/combustion/local_capture.py:560-587 | Over every run that has not failed each accumulator is of one subject, serial and class, counts its losses, and runs exactly from the earliest to the latest of them |
| CaptureDrain.CleanReachableIff | custom_components/combustion/local_capture.py:589-679 | A run can still end clean iff capture has not failed and its writer has neither raised nor been cancelled |
| CaptureDrain.TimedOutStopIsUnclean | custom_components/combustion/local_capture.py:663-673 | A stop that gives up waiting cancels the writer, and no continuation ends clean |
| LocalCapture.LocalCaptureSupervisor.NoteDropped | custom_components/combustion/local_capture.py:560-587 | Opens or widens the accumulator of the record's key |
| LocalCapture.LocalCaptureSupervisor.EnqueueRecord | custom_components/combustion/local_capture.py:535-558 | Is one enqueue of the pipeline, drop policy included |
| LocalCapture.LocalCaptureSupervisor.OfferRegular | custom_components/combustion/local_capture.py:501-521 | Emits at most once per interval and keeps only the newest record otherwise |
| LocalCapture.LocalCaptureSupervisor.FlushRegular | custom_components/combustion/local_capture.py:523-533 | Cancels the timer and emits the pending record |
| LocalCapture.LocalCaptureSupervisor.NewRecord | custom_components/combustion/local_capture.py:455-499 | Takes the next ordinal, then builds the record from the two readings, or none where a reading is not finite |
| LocalCapture.LocalCaptureSupervisor.OnBleObservation | custom_components/combustion/local_capture.py:162-186 | Is one observation step; the record is regular iff the stream's last signature was the same, else a transition; regular records are offered, transitions flush their stream and are enqueued |
| LocalCapture.LocalCaptureSupervisor.OnPredictionObservation | custom_components/combustion/local_capture.py:188-237 | Is one prediction step |
| LocalCapture.LocalCaptureSupervisor.WriterLoopTop | custom_components/combustion/local_capture.py:589-625 | Returns, waits, takes the accumulators or takes a batch |
| LocalCapture.LocalCaptureSupervisor.WriterGapSaved | custom_components/combustion/local_capture.py:601-623 | Saves the next accumulator or takes a batch |
| LocalCapture.LocalCaptureSupervisor.AsyncStopBegins | custom_components/combustion/local_capture.py:645-663 | Flushes every pending stream before refusing records |
| LocalCapture.LocalCaptureSupervisor.AsyncStopFinishes | custom_components/combustion/local_capture.py:674-679 | Marks the run clean only if the writer returned and nothing failed |
| Auth.ParseRefreshResponse | custom_components/combustion/cloud/auth.py:31-43 | Accepts exactly the complete responses of the right subject with a lifetime of 1 to 86,400 seconds; otherwise the first failing check decides the error |
| Auth.LifetimeAsText | custom_components/combustion/cloud/models.py:131-143 | A lifetime written as a decimal string is read back as the number |
| Auth.ApplyKeeps | custom_components/combustion/cloud/auth.py:78-127 | Every call, lock acquisition, reply, hook result and cancellation keeps the lifecycle invariant |
| Auth.SingleFlight | custom_components/combustion/cloud/auth.py:88-101 | Under any interleaving at most one caller has a request in flight |
| Auth.TokensChain | custom_components/combustion/cloud/auth.py:98-118 | Each request carries the token of the last refresh accepted before it; the generation counts accepted refreshes; all are of one subject, the expected one |
| Auth.SubjectIsConstant | custom_components/combustion/cloud/auth.py:31-36 | Once set the subject never changes |
| Auth.UsableWhenIssued | custom_components/combustion/cloud/auth.py:78-86 | A grant is usable when issued iff it lasts at least two seconds |
| Auth.FailuresAreCurrent | custom_components/combustion/cloud/auth.py:88-101 | In every run a request sent for a failed id token was sent while that token was the current one, or there was none |
| Auth.StaleFailureSendsNothing | custom_components/combustion/cloud/auth.py:88-93 | Over every run: once another token is current, no request is ever sent for a superseded one, whoever reports it |
| Auth.ConcurrentCallersShareOneRequest | custom_components/combustion/cloud/auth.py:88-127 | From any manager at rest whose token needs a refresh, any number of callers at one instant, in any interleaving, cause one request and get one token if the grant lasts two seconds |
| Auth.NextCallerSendsNothingIff | custom_components/combustion/cloud/auth.py:94-97 | The next waiting caller sends nothing iff the grant lasts at least two seconds |
| Auth.ShortLifetimeRepeats | custom_components/combustion/cloud/auth.py:78-97 | Two callers and a one-second grant: two requests |
| AuthTimes.TokenAnswersIff | custom_components/combustion/cloud/auth.py:78-86 | `token` answers from the snapshot iff more than 1 second of a lifetime of up to 4, more than a quarter of one up to 1200, or more than 300 seconds of a longer one is left |
| AuthTimes.LockSendsIff | custom_components/combustion/cloud/auth.py:88-101 | Under the lock a request is sent iff that is not so, or, for a failed token, iff it is the current one or there is none |
| AuthTimes.GrantIsReusedUntil | custom_components/combustion/cloud/auth.py:78-127 | Every caller is answered from a grant until one second, a quarter of its lifetime or 300 seconds before it expires, through any run that accepts no other |
| AuthTimes.GrantStored | custom_components/combustion/cloud/auth.py:109-127 | What an accepted refresh leaves: subject, tokens, expiry at the reply plus the lifetime, the next generation, and the lock held only for the rotation hook |
| AuthTimes.FailureKeepsToken | custom_components/combustion/cloud/auth.py:103-108 | A failed refresh changes nothing but its caller and the lock |
| AuthTimes.FailureTold | custom_components/combustion/cloud/auth.py:103-108 | Broken contracts, wrong accounts and refused credentials become one authentication error; other errors pass |
| AuthTimes.HookFailureKeepsGrant | custom_components/combustion/cloud/auth.py:119-126 | A rotation hook that fails loses its caller's answer only; the grant stays |
| AuthTimes.AcceptedIff | custom_components/combustion/cloud/auth.py:31-43 | A response is accepted iff three plain texts of at most 2048 characters, a lifetime of 1 to 86,400 seconds and the known subject are in it |
| AuthTimes.RefusedWith | custom_components/combustion/cloud/auth.py:31-43 | The first failing field decides the error of a refused response |
| AuthTimes.TextAsNumber | custom_components/combustion/cloud/models.py:131-143 | Decimal text, signed or not, of up to twenty characters stands for its number |
| TokenLifecycle.TokenManager.Token | custom_components/combustion/cloud/auth.py:78-86 | Answers from the snapshot iff enough of its lifetime is left (more than 1 second, a quarter or 300 seconds, by the length of the lifetime), or queues for the lock |
| TokenLifecycle.TokenManager.Locked | custom_components/combustion/cloud/auth.py:88-101 | Under the lock: an answer under the same condition, or for a failed token when it is not the current one; else one request with the current refresh token |
| TokenLifecycle.TokenManager.Replied | custom_components/combustion/cloud/auth.py:98-127 | Is one reply step: errors surface and release, a grant updates all four fields, and the hook keeps the lock |
| FenceInvariant.StepKeepsFence | custom_components/combustion/storage/database.py:240-309 | Every step but a launch during a suspended cleanup keeps the fence invariant |
| FenceInvariant.CarefulRunsAreFenced | custom_components/combustion/storage/database.py:240-253 | Over every such run each live writer's path is owned and no two live writers share a path |
| FenceInvariant.LaunchIsSafeIff | custom_components/combustion/storage/database.py:255-296 | A launch stays fenced in every continuation iff no cleanup of its object is suspended |
| FenceInvariant.RestartDuringCleanupUnfences | custom_components/combustion/storage/database.py:284-296 | A run in which a failed start's cleanup unfences a second start's writer |
| FenceOutcomes.ClosedIntakeAcceptsNothing | custom_components/combustion/storage/database.py:510-517 | Over every run in which no start of the object returns, closed intake stays closed and accepts nothing |
| FenceOutcomes.IntakeCloses | custom_components/combustion/storage/database.py:829-841 | A write that raises on the store, a request to stop accepting and a stop close intake |
| FenceOutcomes.StopJoinOutcome | custom_components/combustion/storage/database.py:842-879 | A join that times out changes nothing; otherwise thread and pool are cleared, and the path is given up iff the writer closed without error |
| FenceOutcomes.ShutdownFreesPathIff | custom_components/combustion/storage/database.py:842-879 | After an ordinary shutdown, join and pool, the path is free iff the writer closed without error |
| FenceOutcomes.FailedStartOutcome | custom_components/combustion/storage/database.py:284-296 | A failed start gives up its path once its thread has ended |
| FenceOutcomes.DiscardOutcome | custom_components/combustion/storage/database.py:881-886 | Discarding gives up the path iff the object has it and its thread does not run |
| Drain.WritesRunInOrder | custom_components/combustion/storage/database.py:464-488 | In every run accepted writes run at most once and in order, and the others wait in the queue |
| Drain.EveryAcceptedWriteRuns | custom_components/combustion/storage/database.py:456-508 | In clean runs, whenever no writer serves an object every write it accepted has run exactly once, in order |
| Drain.ReturnIsCleanIff | custom_components/combustion/storage/database.py:298-303 | A write accepted when start returns has run in every clean continuation, by the time no writer serves the object, iff the start returned while a writer served it and no stop was queued |
| Drain.WriteBehindStopIsStranded | custom_components/combustion/storage/database.py:836-848 | A run in which a writer closes without running an accepted write |
| ArchiveDatabases.ArchiveDatabase.AcquireGuard | custom_components/combustion/storage/database.py:240-246 | Takes the path iff nobody owns it |
| ArchiveDatabases.ArchiveDatabase.ReleaseGuard | custom_components/combustion/storage/database.py:248-253 | Gives up the path only if this object owns it |
| ArchiveDatabases.ArchiveDatabase.AsyncStart | custom_components/combustion/storage/database.py:255-276 | Launches a writer iff no thread is set and the path is free |
| ArchiveDatabases.ArchiveDatabase.StartFails | custom_components/combustion/storage/database.py:284-296 | A failed start joins the thread that is set or cleans up at once |
| ArchiveDatabases.ArchiveDatabase.WriterTurn | custom_components/combustion/storage/database.py:464-488 | Runs the oldest write or leaves the loop at a stop |
| ArchiveDatabases.ArchiveDatabase.AsyncWrite | custom_components/combustion/storage/database.py:510-517 | Queues the write iff intake is open |
| ArchiveDatabases.ArchiveDatabase.AsyncStop | custom_components/combustion/storage/database.py:836-844 | Closes intake, queues the stop marker and names the thread to join |
| ArchiveDatabases.ArchiveDatabase.StopRest | custom_components/combustion/storage/database.py:851-879 | Clears the thread and the pool; a failed shutdown keeps the guard |
| Uart.StepIsPolynomial | custom_components/combustion/combustion_ble/uart.py:28-33 | The shift and conditional xor multiply the register by x modulo the generator |
| Uart.ZeroIsBijective | custom_components/combustion/combustion_ble/uart.py:28-33 | The zero-bit update is a bijection of the register |
| Uart.ZeroIsLinear | custom_components/combustion/combustion_ble/uart.py:28-33 | The zero-bit update is linear |
| Uart.Crc16 | custom_components/combustion/combustion_ble/uart.py:24-34 | The nested loops compute the register after the message's bits, 0xFFFF for none; what that register is, the rows of CrcRemainder say |
| CrcRemainder.CrcIsRemainder | custom_components/combustion/combustion_ble/uart.py:24-34 | The check sequence is the remainder, and the only one, of the message with 16 zeros behind it and 16 ones added in front, divided by x^16 + x^12 + x^5 + 1 |
| CrcRemainder.RemainderUnique | custom_components/combustion/combustion_ble/uart.py:24-34 | Quotient and remainder of a message are unique |
| CrcRemainder.CheckValue | custom_components/combustion/combustion_ble/uart.py:24-34 | The check sequence of "123456789" is 0x29B1 |
| CrcRemainder.LeadingZeroIsDetected | custom_components/combustion/combustion_ble/uart.py:24-34 | A zero byte put before any message changes its check sequence |
| CrcRemainder.SetPredictionFrame | custom_components/combustion/combustion_ble/uart.py:37-41 | The reference frame CA FE B9 70 05 02 58 0A, low byte of the check sequence first |
| CrcRemainder.SilenceAlarmsFrame | custom_components/combustion/combustion_ble/uart.py:37-41 | The reference frame CA FE 62 58 0C 00 |
| Uart.BurstsAreDetected | custom_components/combustion/combustion_ble/uart.py:24-34 | Equal-length messages of any length that differ only within 16 consecutive bits have different check sequences |
| Uart.ResponsesParseBack | custom_components/combustion/combustion_ble/uart.py:52-65 | A well-formed response frame with a payload of up to 255 bytes parses back exactly, whatever follows it |
| Uart.ParsedIsFrame | custom_components/combustion/combustion_ble/uart.py:52-65 | Whatever parses begins with the well-formed frame of what it parses to |
| Uart.CorruptionIsRejected | custom_components/combustion/combustion_ble/uart.py:52-65 | A burst of up to 16 bits in type, success or payload of an accepted message is always rejected |
| Uart.ByteErrorIsRejected | custom_components/combustion/combustion_ble/uart.py:52-65 | So is any change of one of those bytes |
| Uart.RequestsReadBack | custom_components/combustion/combustion_ble/uart.py:37-41 | A request frame determines its type and payload and carries their check sequence; only payloads over 255 bytes raise |

## Left out

- Auth.ConcurrentCallersShareOneRequest: covers callers of `token` at one clock reading whose refreshes succeed; what cancellation, failure or a later clock do to a caller is in the step functions and the lifecycle invariant only.
- CaptureInvariant.AllHeldIffReadingsFinite: speaks of runs that have not failed; a failed run stops accepting records and is never marked clean.
- SQLite, file modes, checkpoints and backups: a transaction is atomic, and a fault falls before or after COMMIT.
- Hashes and generated identifiers: identities derived by hashing are the tuples that were hashed, and row identifiers are fresh.
- Auth.UsableWhenIssued: token expiry and margins are exact reals where the source adds floats, so the threshold of two seconds is a statement about exact arithmetic.
- LedgerRuns.ApplyKeepsInv: does not cover a manifest completion called with a sample or audit unit, which `async_complete_manifest` would mark done without a receipt; `AsyncCompleteManifest` is exact for such a call too.
- Clocks: every step takes arbitrary readings; one step reads its clock once, so `now` in `async_complete_manifest` and in the enqueue it calls are the same number.
- Columns no branch reads: manifest revisions and checks, raw JSON, timestamps of first and last sight, error categories, sample fields, the scope and reason of gaps (constant here).
- `async_record_discovery`: its upserts are those of the page writer, for all pages in one transaction. `async_begin_discovery` and `async_finish_discovery` are steps of the model but not methods of the class.
- `async_record_manifest_failure`: a row no branch reads, followed by `async_fail_work`.
- Transport, JSON decoding, timestamps, Home Assistant entities and the Bluetooth managers: only their validated results reach the model. Unicode white space beyond ASCII is not modelled in the blank test of required strings.
- Local capture: record payloads and floating-point rounding (a finite reading is a real, truncated to microseconds and nanoseconds; a reading whose scaled value overflows counts as not finite). A strict one-per-second rate is not claimed of runs: timers fire at any time in the model.
- Database reads, health counters and the reader pool's work: they do not affect the fence or the queue.
- Writer threads use the futures of their own start; `self._init_future` being replaced by a second start during an unfenced run is not modelled.
- Cancelled futures of queued writes: `async_write` shields them, so the skip in the writer loop is not reached.
- The rotation hook and the transport are opaque: they return or raise. `TokenManager.__init__` rejecting oversized credentials is the constructor's precondition.
