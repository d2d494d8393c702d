# Verification of the image-render pipeline

A Dafny 4.11 model of the parts of this repository that are hardest to get right, with proofs of what
they promise. `dafny verify dfyconfig.toml` checks everything.

- **Rust work queue** (`RenderQueue`, `RenderQueueRuns`, `RenderQueueTheorems`). Calls to
  `BoundedWorkQueue::add` interleave at every await. One method of the class is one region that runs
  without yielding; a state machine runs any number of callers through those regions in any order, and
  may drop a caller's future at any await. `QueueComparison` sets its admission rule beside the Node queue's.
- **Image service** (`RenderService`, `RenderServiceTheorems`, `RenderServiceCaching`,
  `RenderServiceOutcomes`, `ImageServices`). Cache, queue and the two-attempt retry composed on top of the
  queue's machine. The cache may forget any entry at any time, as Moka may.
- **Node cache, queue and service** (`RenderCache`, `RenderCacheRuns`, `EventQueue`, `EventQueueRuns`,
  `LegacyService`, `LegacyServiceRuns`, `LegacyCaching`, `LegacyOutcomes`, `LegacyTimers`, `LegacyKeys`). The
  byte-budget LRU/TTL cache, the event-loop queue, the service that composes both with lookups shared by
  key, what it makes of its cache, what its callers are told, its timers, and its loadout keys.
- **CDP client** (`CdpClient`, `CdpClientRuns`). Requests, the reader task and timeouts over one map
  of pending replies.
- **Credential scan** (`CredentialScan`, `CredentialLanguage`). The chunked search against a small
  regular-expression language, for any chunking and any short reads, and the language spelled out in bytes.
- **Rate limits** (`RateLimits`, `CommandRefusals`, `ImageCooldown`), **autocomplete** (`Autocomplete`),
  **asset catalog** (`AssetCatalog`, `AssetSearches`, `CardDescriptions`) and **texts** (`Numbers`,
  `ScaledNumbers`, `CardText`, `CardLevels`, `Spaces`, `Spacing`, `HtmlText`, `UrlText`).

How the models are built:

- A class holds the fields the source updates. Each method is tied to a function on a value (`View()`)
  or to a step of a state machine, and the results about whole runs are proved about those. The
  one-line regions of the Rust queue (taking and freeing a permit, the `active` counter, counting and
  storing an outcome, notifying, removing the key; src/image/render_queue.rs:175-207) are such methods
  too, with no rows of their own below.
- A `Notified` future sees every `notify_waiters` made after it was created; a semaphore permit may go
  to any waiting task; a oneshot channel holds at most one value. These are step rules.
- The shared result of one key is a numbered holder instead of an `Arc`. The queue's payload is bytes,
  the one type it is used with. A record of the Rust service may lack any of its ids and times; those it
  has are texts, a number and its text being one id.
- Clocks, renders, replies and reads are parameters or steps with any outcome. A Rust render may also
  never end. Durations, times and card values are exact numbers.
- Timers of the Node service run on a clock that passes in ticks of any length. A queue timer never fires
  early. No attempt is under way once its own timer is late by as long as the queue's timer is longer,
  which is more than half of `timeoutMs`; so long a stall of the event loop is not modelled.
- Character-wise normalization is a parameter: what one character becomes after decomposition,
  lower-casing and filtering. Results hold for every such function, so for ASCII in particular.

Findings, each with its exact condition:

- A match is queued under its bare id and a loadout under its cache key, which joins its parts with
  colons; a missing id or time is written `unknown` (src/image/render_service.rs:289-295). A record is good
  when it has all its ids and, for a loadout, an update time or else a fetch time; no colon stands in its
  player or loadout id; and it is not a match whose id is spelled like a loadout's key (`loadout:`, two
  colons further on, and the template version at the end). Among good records every served image shows
  what was asked for. Each record that is not good shares its queue slot with a good one, and some run with
  just these two serves it, and caches as it, the other's image. Two matches without ids are one match to
  the service, and so are all versions of a loadout without times. All-digit match ids, and any without the
  `loadout:` prefix, meet the condition on spelling.
- Of one record alone, its cache key belongs to no other record's subject exactly when no id or time of it
  is the text `unknown` either and, for a loadout, no colon stands in its time. Times with colons are told
  apart only because ids have none.
- Loadout keys of the Node service have the same ambiguity: a loadout without a time, or with a colon in
  its ids, shares its job with another loadout, whose record then draws the image for both.
- A Node job whose queue timer has fired gives up its slot while its render attempt runs on, so attempts
  under way can outnumber `concurrency`. The attempt's own timer is the shorter one, so there are never more
  than `2 * concurrency`: at most `concurrency` in time and as many overdue. Some run reaches that number.
- `is_work_timeout` looks for the text ` exceeded `, so besides timeouts it accepts render errors that
  contain it, although its comment says it is true only for timeouts.
- A producer dropped before it returns leaves its key in the map for good, and its waiters asleep.
- A CDP caller dropped after registering leaves its entry until a reply with its id is read.
- `cached_match` does not count an empty image as cached, while `render_match` serves it.
- `talent_icon` recognizes Seris/Resuscitate by raw spelling but memoizes under normalized names. The
  memo is faithful exactly for runs that do not mix the exact spelling with another under one key.
- `format_scaled_number` loses the minus sign exactly for values above -0.995 and up to -0.005, those
  that round to a fraction strictly between -1 and 0.
- `format_grouped` differs from `number` exactly at the least 64-bit integer, where `abs` wraps (a
  build with overflow checks stops there instead).
- The Rust queue bounds keys in flight by `concurrency + max_queued`, the Node queue waiting jobs by
  `maxQueued`. Of one size and with the same keys in flight they admit the same calls, as the comment on the
  Rust queue says, exactly when `maxQueued` is above 0. With `maxQueued` 0 the Node queue never holds a job
  and refuses every call, while the Rust queue still fills its slots. The Node configuration asks for at
  least 1 (legacy-node/src/config.ts:12-15).

## Model

| member | source | states |
|---|---|---|
| RenderQueue.BoundedWorkQueue.constructor | src/image/render_queue.rs:114-131 | concurrency is clamped to at least one; all permits are free and nothing is in flight |
| RenderQueue.BoundedWorkQueue.AdmitCall | src/image/render_queue.rs:147-168 | under the map lock a call joins its key's holder, is refused at capacity, or becomes the producer of a new holder |
| RenderQueue.BoundedWorkQueue.RecordElapsed | src/image/render_queue.rs:272-278 | a duration is appended and the oldest dropped beyond a hundred |
| RenderQueueRuns.StepKeepsInv | src/image/render_queue.rs:142-221 | every region of every caller, and dropping a caller, keeps the invariant tying map, holders, permits, counters and callers together |
| RenderQueueRuns.RunKeepsInv | src/image/render_queue.rs:142-221 | so does every interleaved run |
| RenderQueueTheorems.WorkIsBounded | src/image/render_queue.rs:147-186 | at most `concurrency` producers hold permits, the map never exceeds `concurrency + max_queued`, and `active` is the running work plus work dropped while running |
| RenderQueueTheorems.InFlightIsLiveProducers | src/image/render_queue.rs:147-207 | a key is in the map exactly when a producer of it has not yet removed it, and there is only one such producer |
| RenderQueueTheorems.AdmissionIsExact | src/image/render_queue.rs:147-168 | a new call joins exactly when a live producer has its key, and is turned away exactly when none has and live producers fill the capacity |
| RenderQueueTheorems.OutcomeIsFinal | src/image/render_queue.rs:188-208 | over any further run a settled outcome is never replaced and a call keeps its key and role |
| RenderQueueTheorems.WaiterReturnsProducerOutcome | src/image/render_queue.rs:205-220 | a waiter returns the published outcome of the producer of its own key, value or error text |
| RenderQueueTheorems.OutcomeComesFromWork | src/image/render_queue.rs:185-195 | a producer's outcome describes how its own work ended in the run |
| RenderQueueTheorems.CallsReturnWorkOfTheirKey | src/image/render_queue.rs:142-221 | end to end: every returned call returns what a call's work of the same key ended with |
| RenderQueueTheorems.NoLostWakeup | src/image/render_queue.rs:205-220 | no waiter sleeps with its result published and its notification missed |
| RenderQueueTheorems.CallsAreConserved | src/image/render_queue.rs:149-204 | calls are refusals plus joins plus producers, and each producer past the tally is counted once in completed or failed |
| RenderQueueTheorems.SamplesAreTheLastHundred | src/image/render_queue.rs:272-278 | the window is the last hundred recorded durations in order |
| RenderQueueTheorems.TimeoutNamesItsLimit | src/image/render_queue.rs:185-195 | a timeout's text names its limit as a decimal numeral without leading zeros |
| RenderQueueTheorems.ErrorsAreKept | src/image/render_queue.rs:185-195 | a failure's text begins with the label and tells different errors apart |
| RenderQueueTheorems.EveryScheduleStops | src/image/render_queue.rs:169-220 | without new calls and drops every schedule is bounded by the steps its callers have left |
| RenderQueueTheorems.QuiescentMeansSettled | src/image/render_queue.rs:169-220 | nothing can move exactly when every call has settled or waits for a dropped producer |
| RenderQueueTheorems.OrphanCannotMove | src/image/render_queue.rs:211-220 | a waiter of a dropped producer is never woken |
| RenderQueueTheorems.DroppedProducerOrphansItsKey | src/image/render_queue.rs:175-207 | a producer dropped at an await leaves its key in the map in every later state |
| RenderService.SafeExactlyWhenNoLoadoutHasTheKey | src/image/render_service.rs:112-185 | the check on a match id's spelling is exact: it is safe just when no loadout has it as cache key |
| RenderService.UnprefixedIdsAreSafe | src/image/render_service.rs:112-129 | a match id without the loadout prefix equals no loadout's cache key |
| RenderService.DigitIdsAreSafe | src/image/render_service.rs:112-129 | all-digit match ids are safe |
| RenderService.SharedSlotMeansSharedImage | src/image/render_service.rs:112-185 | records sharing a queue slot share a cache key unless one is a match and the other a loadout, which safe ids rule out |
| RenderService.MatchKeysAreInjective | src/image/render_service.rs:112-117 | cached matches of one template version are told apart by their ids |
| RenderService.StepKeepsInv | src/image/render_service.rs:108-258 | every step of the composed service keeps every cached, queued and served image drawn for its key |
| RenderService.QueueReturnsDrawnImage | src/image/render_service.rs:123-131 | an image returned through the queue, shared or not, was drawn for the caller's cache key |
| RenderServiceTheorems.ServedImagesBelongToTheirKey | src/image/render_service.rs:108-197 | over every run with safe ids, each cached and served image was rendered, in that run, from a record an earlier call was made with and that has its key |
| RenderServiceTheorems.KeysIdentifySubjects | src/image/render_service.rs:112-180 | among records with all their ids and a time, and no colon in player or loadout id, two share a cache key exactly when they are of the same match or the same version of the same loadout |
| RenderServiceTheorems.NamedExactlyWhenNoNamedDouble | src/image/render_service.rs:112-180 | a record has all its ids and a time, and no colon in player or loadout id, exactly when no such record of another subject shares its cache key |
| RenderServiceTheorems.KeyIsUnambiguousExactly | src/image/render_service.rs:112-180 | a record's cache key belongs to no other subject at all exactly when, besides, none of its ids and times is the text `unknown` and no colon stands in a loadout's time |
| RenderServiceTheorems.KeysAsWritten | src/image/render_service.rs:112-185 | a match is queued under its id, a loadout's time is its update time or else its fetch time, and what is missing is written `unknown` |
| RenderServiceTheorems.VersionsSeparateKeys | src/image/render_service.rs:112-180 | a record's keys under two template versions are equal exactly when the version of its kind is |
| RenderServiceTheorems.ServedImagesShowTheirSubject | src/image/render_service.rs:108-197 | over every run of good records an image served for a record was rendered from a record of the same match or loadout version, its ids and times present and equal |
| RenderServiceTheorems.UnsafeIdCanBeServedALoadout | src/image/render_service.rs:123-185 | for every unsafe id some run caches a loadout's image as the match |
| RenderServiceTheorems.BadRecordHasGoodDouble | src/image/render_service.rs:112-185 | every record that is not good, by its spelling or by a missing id or time, shares its queue slot with a good one of another subject |
| RenderServiceTheorems.MatchesWithoutIdsShareOneImage | src/image/render_service.rs:289-295 | of any two different matches without ids, some run of just these two serves the second an image drawn only from the first |
| RenderServiceTheorems.GoodExactlyWhenNeverWronged | src/image/render_service.rs:108-197 | a record is good exactly when no run whose other records are good ever serves it an image of something else |
| RenderServiceTheorems.AtMostTwoRenders | src/image/render_service.rs:260-286 | no job begins more than two renders in any run, cut off by the timeout or not, and none ends that has not begun |
| RenderServiceTheorems.CountersAreExact | src/image/render_service.rs:241-286 | retries count the jobs whose first render failed; recoveries are the failed renders dealt with plus the calls that handled a timeout text |
| RenderServiceTheorems.WorkTimeoutIsExactly | src/image/render_queue.rs:39-41 | the text test accepts timeouts and exactly those render errors that contain the phrase |
| RenderServiceTheorems.RefusalIsNotATimeout | src/image/render_queue.rs:33-41 | a refused admission is never taken for a timeout |
| RenderServiceTheorems.BusyIsTheQueues | src/image/render_queue.rs:147-168 | the busy error callers get is the text the queue refuses with |
| RenderServiceCaching.ServedOnceServedAgain | src/image/render_service.rs:119-133 | over every run, once a call was served an image, and until its key is forgotten or stored anew, each later call of the key is served that image at its lookup, leaving the queue alone |
| RenderServiceOutcomes.JobsEndAsTheirRenders | src/image/render_service.rs:260-286 | a job ends as its deciding render did, with the image or the text of the error or timeout, and keeps that in every later state |
| RenderServiceOutcomes.CallsEndAsTheirTasks | src/image/render_service.rs:123-133 | over every run a call in the queue ends exactly as its task does: the image, the error, or the busy error |
| ImageServices.ImageService.LookUp | src/image/render_service.rs:119-121 | the lookup hits exactly when an image is stored under the record's key, yields that image, and is the machine's lookup step |
| ImageServices.ImageService.CachedMatch | src/image/render_service.rs:141-151 | the stored image of the match, unless it is missing or empty |
| ImageServices.ImageService.FinishQueuedRender | src/image/render_service.rs:241-258 | success is cached and served, a failure is handed on with its text, and only a timeout text counts a recovery, as in the machine's step |
| ImageServices.ImageService.RenderWithRecovery | src/image/render_service.rs:260-286 | the loop makes a valid run of the machine whatever the attempts yield, returns the first image or the second error, and ends the job with it |
| ImageServices.RecoveryRun | src/image/render_service.rs:270-286 | the whole effect of that run on cache, counters and job |
| RenderCache.RenderCache.Lookup | legacy-node/src/render-cache.ts:13-29 | a miss, an expiry or a hit that moves to the young end, with every counter |
| RenderCache.RenderCache.Store | legacy-node/src/render-cache.ts:31-42 | an oversized write changes nothing; an admitted one replaces its key, drops the oldest entries until it fits, and becomes the youngest |
| RenderCache.RenderCache.MakeRoom | legacy-node/src/render-cache.ts:35-39 | the eviction loop stops with the longest young end that fits, one eviction counted for each entry dropped |
| RenderCache.RenderCache.Delete | legacy-node/src/render-cache.ts:56-58 | deleting a key keeps bytes the sum of the stored sizes |
| RenderCacheRuns.BytesAreExactAndBounded | legacy-node/src/render-cache.ts:13-58 | over any run bytes is the sum of the stored sizes, at most the budget, and keys are distinct |
| RenderCacheRuns.CountersAreConserved | legacy-node/src/render-cache.ts:13-42 | hits plus misses count reads; admitted writes are live, evicted, expired or replaced |
| RenderCacheRuns.CountersAreExact | legacy-node/src/render-cache.ts:13-42 | hits are the reads answered with a value, misses the others, expirations the reads that found an entry too old |
| RenderCacheRuns.StoredIsLastAdmitted | legacy-node/src/render-cache.ts:31-42 | what a key stores is what its last admitted write put there |
| RenderCacheRuns.WritesThatFitAreStored | legacy-node/src/render-cache.ts:31-42 | after any run a write is stored exactly when there is a budget and the value alone fits it, and otherwise changes nothing |
| RenderCacheRuns.HitsReturnLastAdmitted | legacy-node/src/render-cache.ts:13-42 | a hit returns the last admitted value within its lifetime; oversized writes leave the old value readable |
| RenderCacheRuns.EvictedExactlyWhenOverBudget | legacy-node/src/render-cache.ts:31-42 | a write evicts another entry exactly when it, everything used since and the new value exceed the budget |
| RenderCacheRuns.FitMembers | legacy-node/src/render-cache.ts:35-39 | the eviction loop keeps an entry exactly when it and everything used since fit |
| RenderCacheRuns.CacheIsYoungEndOfRecencyList | legacy-node/src/render-cache.ts:13-42 | the cache is always the young end of the recency list kept without a budget |
| RenderCacheRuns.StaysExactlyWhileUseFitsBudget | legacy-node/src/render-cache.ts:13-42 | after its last use, write or hit, an entry not rewritten nor read past its lifetime is stored over a whole run exactly while its size and those of the entries used since, each counted once, have always fitted the budget |
| RenderCacheRuns.ReadsUntilExpiry | legacy-node/src/render-cache.ts:13-29 | and then a read hits it exactly when that held throughout and its lifetime has not ended |
| EventQueue.BoundedWorkQueue.AddCall | legacy-node/src/render-queue.ts:35-50 | a call shares its key's promise, is refused when the waiting list is full, or is queued and drained |
| EventQueue.BoundedWorkQueue.DrainWaiting | legacy-node/src/render-queue.ts:70-104 | the loop shifts exactly as many waiting jobs as there are idle slots |
| EventQueue.BoundedWorkQueue.SettleJob | legacy-node/src/render-queue.ts:87-96 | a settled job is measured, counted once and resolves its own promise |
| EventQueue.BoundedWorkQueue.FinalizeJob | legacy-node/src/render-queue.ts:97-102 | a finished job frees its slot and key and drains |
| EventQueueRuns.StepKeepsInv | legacy-node/src/render-queue.ts:35-110 | every callback keeps order, promises, keys, slots and counters in agreement |
| EventQueueRuns.BoundedAndWorkConserving | legacy-node/src/render-queue.ts:35-104 | active and waiting are bounded, and a job waits only while every slot is busy |
| EventQueueRuns.StartsInAdmissionOrder | legacy-node/src/render-queue.ts:70-73 | the k-th job to start is the k-th admitted |
| EventQueueRuns.StartsOnItsTurn | legacy-node/src/render-queue.ts:70-104 | a job waiting at index i starts on exactly the (i+1)-th later finalization |
| EventQueueRuns.StartsOnlyGrow | legacy-node/src/render-queue.ts:70-73 | a started job never waits again |
| EventQueueRuns.PromisesSettleOnce | legacy-node/src/render-queue.ts:86-96 | each promise is settled at most once and keeps its outcome |
| EventQueueRuns.PromiseOutcomeIsTheJobs | legacy-node/src/render-queue.ts:43-49 | callers of a job await exactly what that job's own settlement produced |
| EventQueueRuns.AnswersAreExact | legacy-node/src/render-queue.ts:35-50 | a call shares the unfinalized job of its key and is refused only for want of room |
| EventQueueRuns.CallsAreConserved | legacy-node/src/render-queue.ts:35-50 | calls are refusals, joins and admissions; settled jobs are counted and measured once each |
| EventQueueRuns.EveryScheduleStops | legacy-node/src/render-queue.ts:86-104 | without new calls every schedule stops within two steps for each job |
| EventQueueRuns.QuiescentMeansFinalized | legacy-node/src/render-queue.ts:70-104 | and it stops with every job finalized, unless the queue has no slot |
| QueueComparison.RefusesEveryCall | legacy-node/src/render-queue.ts:35-50 | with `maxQueued` 0 the Node queue holds nothing in any state it reaches, and refuses every call |
| QueueComparison.NodeRefusesAtCapacity | legacy-node/src/render-queue.ts:35-50 | the Node queue refuses a new key by the rule that keys in flight fill `concurrency + maxQueued`, exactly when something may wait or it has no slot |
| QueueComparison.QueuesAdmitAlike | src/image/render_queue.rs:147-168 | with the same size and keys in flight both queues share, refuse and admit the same calls exactly when `maxQueued` is above 0; else the Node queue refuses what the Rust queue admits |
| QueueComparison.EmptyQueuesDiffer | legacy-node/src/render-queue.ts:35-50 | with `maxQueued` 0 an empty Node queue refuses its first call and an empty Rust queue takes it |
| LegacyService.StepKeepsInv | legacy-node/src/render-service.ts:43-107 | every step of the Node service keeps cache, jobs, lookups and answers tied to the right key |
| LegacyServiceRuns.ImagesBelongToTheirKey | legacy-node/src/render-service.ts:43-89 | over every run, with timeouts and late renders, each cached and resolved image was drawn by a job that a direct call or finished lookup of that key created, on the record it handed in |
| LegacyCaching.CacheIsReplay | legacy-node/src/render-service.ts:43-89 | over every run the service's cache is the replay of one read for each call and one write for each image drawn, under the job's key |
| LegacyCaching.CallsHitWhatWasDrawn | legacy-node/src/render-service.ts:43-89 | end to end: a call after an image of its key was drawn is answered with it exactly while its lifetime lasts and it and everything used since have fitted the budget |
| LegacyOutcomes.RejectionsAreTheJobsOwn | legacy-node/src/render-service.ts:91-107 | a job is rejected only with the error of its own queue timer or of one of its own attempts in the run |
| LegacyOutcomes.FoundRecordFollowsItsJob | legacy-node/src/render-service.ts:68-72 | in every later state a lookup that found its record waits for the job it landed on, has ended with that job's outcome, or has the busy error when the queue was full |
| LegacyOutcomes.FailedLookupKeepsItsError | legacy-node/src/render-service.ts:68-71 | a failed lookup ends with its own error |
| LegacyOutcomes.JoinsAreCounted | legacy-node/src/render-service.ts:63-67 | of the calls that wait for lookups, all but the one that started each are counted as deduplicated |
| LegacyOutcomes.ByIdAnswersAreExact | legacy-node/src/render-service.ts:59-73 | after a miss a call by id joins the lookup of its key if one has not ended, else is refused for want of room, else starts the next lookup |
| LegacyOutcomes.DirectAnswersAreExact | legacy-node/src/render-service.ts:75-89 | after a miss a direct call gets the job that draws its key if there is one, else is refused when the queue is full, else has a job made on its record |
| LegacyServiceRuns.SharedJobIgnoresLaterRecords | legacy-node/src/render-service.ts:75-89 | a caller that shares a job under way has its record ignored: the image was drawn on the record of the caller that created the job |
| LegacyServiceRuns.RecordIsFinal | legacy-node/src/render-service.ts:84-88 | a job keeps the record it was created with |
| LegacyServiceRuns.OneLookupPerKey | legacy-node/src/render-service.ts:59-73 | no key is looked up twice at once, and the in-flight map names the lookup that has not ended |
| LegacyServiceRuns.RendersInTimeAreBounded | legacy-node/src/render-queue.ts:70-104 | over every run, renders in progress whose job has not timed out are at most `concurrency` |
| LegacyTimers.AtMostTwoAttemptsForEachSlot | legacy-node/src/render-service.ts:109-131 | over every run, attempts under way are at most `concurrency` of jobs in time and `concurrency` of jobs that have timed out, so at most `2 * concurrency` |
| LegacyTimers.TwoAttemptsForEachSlotAreReached | legacy-node/src/render-queue.ts:76-102 | for every number of slots some run has `2 * concurrency` attempts under way at once |
| LegacyTimers.AttemptTimerIs | legacy-node/src/render-service.ts:33 | an attempt's timer is two fifths of the queue's, from 1 to 6000 milliseconds |
| LegacyServiceRuns.AtMostTwoAttempts | legacy-node/src/render-service.ts:91-107 | no job begins or ends more than two attempts, and after its timeout at most the one in progress ends |
| LegacyServiceRuns.CountersAreExact | legacy-node/src/render-service.ts:98-104 | retries count the works tried twice, recoveries every failed attempt dealt with |
| LegacyService.RenderService.JoinOrLookUp | legacy-node/src/render-service.ts:63-72 | after a miss a call joins the lookup of its key, is refused, or registers a new lookup, as in the machine's step |
| LegacyService.RenderService.ForgetMatch | legacy-node/src/render-service.ts:70 | an ended lookup leaves the map, as in the machine's step |
| LegacyService.RenderService.AfterFailedAttempt | legacy-node/src/render-service.ts:98-104 | a failed attempt counts a recovery, and is followed by another exactly when it was the first and the job was not aborted |
| LegacyService.RenderService.RenderWithRecovery | legacy-node/src/render-service.ts:91-107 | the loop's result and both counters for any attempts and aborts; the statement after it is never reached |
| LegacyKeys.KeysIdentifyLoadouts | legacy-node/src/render-service.ts:47-49 | among loadouts with a time and no colon in their ids, keys are equal exactly when player, loadout and time are |
| LegacyKeys.UnnamedHasNamedDouble | legacy-node/src/render-service.ts:47-49 | every other loadout shares its key with one of those that is another loadout or version |
| LegacyKeys.AmbiguousLoadoutSharesAJob | legacy-node/src/render-service.ts:47-57 | and in a run of two calls shares its job: its image is drawn on the other's record |
| CdpClient.CdpClient.NextId | src/image/cdp_client.rs:151-156 | the id is the counter, which then wraps around at 64 bits |
| CdpClient.CdpClient.InsertPending | src/image/cdp_client.rs:157-158 | the call's sender is registered, dropping any sender under the same id |
| CdpClient.CdpClient.RemovePending | src/image/cdp_client.rs:161-173 | the entry is removed and its sender dropped |
| CdpClient.CdpClient.ReadReply | src/image/cdp_client.rs:77-90 | a reply with a pending id is handed to its sender and the entry removed; any other reply changes nothing |
| CdpClientRuns.StepKeepsInv | src/image/cdp_client.rs:72-182 | every step of callers, reader and timeouts keeps ids, pending map and replies in agreement |
| CdpClientRuns.IdsAreDistinct | src/image/cdp_client.rs:151-158 | ids of all calls are distinct and below the counter, and a pending id belongs to its own call |
| CdpClientRuns.ReturnedCallsAreClean | src/image/cdp_client.rs:160-181 | a returned call has nothing pending and returned its own reply or error; the closed-channel branch is never taken |
| CdpClientRuns.LateRepliesChangeNothing | src/image/cdp_client.rs:77-90 | a reply changes nothing exactly when no registered call under its id still lacks one: late, repeated and unknown replies are ignored |
| CdpClientRuns.AcceptedOnce | src/image/cdp_client.rs:79-88 | at most one reply is ever accepted for an id |
| CdpClientRuns.RepliesReachTheirCall | src/image/cdp_client.rs:72-182 | end to end: a call's reply is the only reply accepted under its id in the run |
| CdpClientRuns.ErrorsTellWhatHappened | src/image/cdp_client.rs:160-181 | over every run a call is told of a timeout only when its timer fired, and of a failed send only when sending failed |
| CdpClientRuns.ReusedIdClosesEarlierCall | src/image/cdp_client.rs:151-169 | once an id comes round while its first owner waits, that owner can only see a closed channel |
| CdpClientRuns.DroppedCallLeaksUntilReply | src/image/cdp_client.rs:158-173 | a caller dropped after registering stays pending exactly until a reply with its id is read |
| CdpClientRuns.EveryScheduleStops | src/image/cdp_client.rs:145-182 | without new calls the steps of callers are bounded by what each has left, however many replies are read |
| CdpClientRuns.QuiescentMeansSettled | src/image/cdp_client.rs:145-182 | nothing that follows sending can happen exactly when every call has returned, was dropped or has not been sent |
| CredentialScan.MatchHasShortCore | scripts/security/full_history_credential_boundary.py:12 | every match starts with a match of at most the expression's core length |
| CredentialScan.PatternCoreIs35 | scripts/security/full_history_credential_boundary.py:12 | the core of the six-way pattern is 35 bytes and no match is shorter than 20 |
| CredentialScan.TailSuffices | scripts/security/full_history_credential_boundary.py:34-36 | searching the new part behind the carried tail finds what searching everything would |
| CredentialScan.ScanFor | scripts/security/full_history_credential_boundary.py:26-37 | the loop for any expression with a short core: finds exactly what a search of the whole blob would, for any chunk size and short reads, and consumes exactly the blob |
| CredentialScan.CredentialInBlob | scripts/security/full_history_credential_boundary.py:26-37 | the same for the scanner's pattern; it fails exactly when the stream ends early or the chunk size is zero |
| CredentialLanguage.PatternSpelled | scripts/security/full_history_credential_boundary.py:12 | the pattern matches exactly the byte strings of the six kinds, spelled out with both letter cases and every class |
| CredentialLanguage.FoundSpelled | scripts/security/full_history_credential_boundary.py:12 | a search succeeds exactly when some part of the text is such a string |
| CredentialLanguage.CaseNeverMatters | scripts/security/full_history_credential_boundary.py:12 | changing the case of any ASCII letters never changes whether a search succeeds |
| CredentialScan.Stream.Read | scripts/security/full_history_credential_boundary.py:30-32 | a pipe returns any nonempty part up to the size asked for, and nothing only at its end |
| RateLimits.WindowStore.Claim | src/commands.rs:269-293 | a claim prunes expired windows and answers as its key's own window would |
| RateLimits.ClaimsForgetExpiredWindows | src/commands.rs:276-292 | after a claim the store holds no expired window, and every other one unchanged |
| RateLimits.KeysAreIndependent | src/commands.rs:276-292 | over any run a key's answers are those of a store that holds only it and never prunes |
| RateLimits.AtMostTwiceTheLimitLessOne | src/commands.rs:281-292 | any half-open interval as long as the window holds at most 2L-1 grants of a key |
| RateLimits.TwiceTheLimitLessOneIsAttained | src/commands.rs:281-292 | and some run attains it, for every limit and every window of at least two units |
| RateLimits.AtMostTheLimitInAWindow | src/commands.rs:281-292 | a window that starts with a claim holds at most L grants |
| RateLimits.RefusedOnlyWhenFull | src/commands.rs:288-292 | a claim is refused only after L grants within the window length that ends with it |
| RateLimits.CommandLimits.ClaimCommandRate | src/commands.rs:295-307 | both stores are charged whatever the other answers, and the command goes ahead when both agree |
| RateLimits.CommandsAreBounded | src/commands.rs:295-307 | no ten seconds hold more than 15 commands of a user or 79 of a guild |
| CommandRefusals.CommandRefusedOnlyWhenFull | src/commands.rs:295-307 | a command is refused only after its user was let through 8 times within ten seconds, or its guild 40 times; an unknown user or guild never counts against it |
| ImageCooldown.CooldownStore.Claim | src/commands.rs:254-267 | expired entries are pruned; a pending one is refused with the rounded-up wait, otherwise the user's cooldown starts |
| ImageCooldown.ClaimsForgetPastCooldowns | src/commands.rs:254-267 | after a claim the store holds exactly the users who must still wait, the earlier ones unchanged |
| ImageCooldown.GrantedExactlyWhenCool | src/commands.rs:254-267 | an image is granted exactly when the user was granted none in the last 10,000 ms |
| ImageCooldown.NamedWaitIsExact | src/commands.rs:262-263 | the named wait is the least whole number of seconds that suffices |
| ImageCooldown.RetriesNeverLengthenTheWait | src/commands.rs:254-267 | refused retries leave the end of a wait where the last grant put it, and every refusal names the least whole seconds that reach it |
| ImageCooldown.WaitingSuffices | src/commands.rs:254-267 | in a run, waiting it out is enough whatever other users do and however often it is retried in vain |
| Autocomplete.MatchesExactlyWhenContained | src/autocomplete.rs:63-88 | a name matches exactly when its normalized form contains the query; the word rule never adds a name |
| Autocomplete.KeptAreFirst | src/autocomplete.rs:99-104 | a name is kept exactly when some occurrence of it is the first with its normalized key |
| Autocomplete.RankingIsUnique | src/autocomplete.rs:106-114 | there is one ranking, so the hash map's order cannot matter |
| Autocomplete.ChampionAutocompleteChoices | src/autocomplete.rs:99-122 | for every iteration order the choices are the first 25 of that ranking, capped to 100 characters |
| Autocomplete.BestAreLeast | src/autocomplete.rs:114-117 | a kept match is left out only if 25 others come before it by score and name |
| Autocomplete.BetterMatchesComeFirst | src/autocomplete.rs:68-86 | names starting with the query come before all others, then names with a word starting with it |
| Autocomplete.ExactMatchComesFirst | src/autocomplete.rs:68-70 | the kept name spelled like the query is always the first choice |
| Autocomplete.TiesAreAlphabetical | src/autocomplete.rs:106-114 | the ranking goes by score, and among equal scores by the first character in which two names differ |
| Autocomplete.WordRuleIsAboutWords | src/autocomplete.rs:73-86 | the word rule holds exactly when some longest run of word characters, normalized, starts with the query |
| Autocomplete.ChoicesAreNames | src/autocomplete.rs:114-122 | each choice is labelled and valued by its name, or by its first hundred characters |
| AssetCatalog.PreferredIsFirstBest | src/image/asset_catalog.rs:24-41 | the preferred image is the first of the best format |
| AssetSearches.IconFound | src/image/asset_catalog.rs:162-178 | the first file of the best format, AVIF before PNG before WebP before JPEG, among those called the champion's icon, or else among those whose path names champion and icon |
| AssetSearches.BannerFound | src/image/asset_catalog.rs:195-206 | the same for the banner's name, and then the icon's rule |
| AssetSearches.MapFound | src/image/asset_catalog.rs:275-306 | the same for the ranked name, a ranked path, any path of the map, and the neutral map, in this order |
| AssetSearches.MarksAreIgnored | src/image/asset_catalog.rs:262-270 | ranked, live, work-in-progress and version marks anywhere in a map's name do not change its key |
| AssetSearches.OtherWordsCount | src/image/asset_catalog.rs:262-271 | without marks a map's key is its normalized name |
| AssetSearches.GenericFound | src/image/asset_catalog.rs:378-401 | the first icon of the name with the preferred extension in lower case, or else the best of the name |
| AssetSearches.TalentFound | src/image/asset_catalog.rs:235-248 | the best file called by both names, but for the one renamed talent |
| AssetSearches.RankFound | src/image/asset_catalog.rs:347-358 | tier 5g + 6 - d shows division d of group g, spelled out |
| AssetSearches.SpecialRankFound | src/image/asset_catalog.rs:326-346 | tiers 0, 26 and 27 upward show the qualifying, master and grandmaster icons |
| AssetCatalog.Catalog.ChampionIcon | src/image/asset_catalog.rs:157-181 | in every state of the memo the answer is what the search would find, and it goes on record under the name's key |
| AssetCatalog.Catalog.ChampionBanner | src/image/asset_catalog.rs:190-209 | likewise, with the fallback through the icon memo |
| AssetCatalog.Catalog.Icon | src/image/asset_catalog.rs:373-404 | likewise, although no preferred extension and an empty one share a key |
| AssetCatalog.Catalog.MapImage | src/image/asset_catalog.rs:261-312 | likewise, although names that differ in tags and versions share a key |
| AssetCatalog.Catalog.RankIcon | src/image/asset_catalog.rs:321-364 | likewise for a tier |
| AssetCatalog.GenericDependsOnKey | src/image/asset_catalog.rs:374-401 | requests with one key find the same file: the key takes apart into name and extension |
| AssetCatalog.Catalog.TalentIcon | src/image/asset_catalog.rs:219-252 | one memoized talent lookup, with the exact-spelling rule for the renamed talent |
| AssetCatalog.AnswerIsFirstSearch | src/image/asset_catalog.rs:225-252 | every talent lookup of a run answers what the first request under its key found |
| AssetCatalog.MemoIsFaithfulExactlyWhenSpelledAlike | src/image/asset_catalog.rs:225-252 | a run of lookups one after another answers what uncached searches would, for every listing, exactly when no key mixes the exact spelling with another |
| AssetCatalog.OverlappingLookupsAreFaithful | src/image/asset_catalog.rs:231-251 | without such a mix the answers stay right when lookups overlap, miss together and record later |
| CardDescriptions.LoadChampionCardDescriptions | src/image/asset_catalog.rs:493-530 | a key maps to a text exactly when some card with that key has it and no card with that key has another |
| CardDescriptions.TableSpelledOut | src/image/asset_catalog.rs:493-530 | a key and a text stand in the table exactly when neither is empty, some card has both, and no card of the key has another text that is not empty |
| CardDescriptions.OrderIsIrrelevant | src/image/asset_catalog.rs:493-530 | the table does not depend on the order of champions and cards |
| Numbers.Number | src/image/template.rs:164-179 | the sign and the digits in groups of three from the right |
| Numbers.FormatGrouped | src/embeds.rs:156-172 | the same text exactly for every 64-bit integer but the least |
| Numbers.NumberReadsBack | src/image/template.rs:164-179 | dropping the commas reads the number back |
| Numbers.CommasAreEveryFourth | src/image/template.rs:168-173 | every group after the first has three digits, and no comma comes first |
| ScaledNumbers.FormattedReadsBack | src/image/template.rs:181-190 | for rounded hundredths: the text reads back exactly when the whole part fits 64 bits and the value is not strictly between -1 and 0 |
| ScaledNumbers.ScaledNumberReadsBack | src/image/template.rs:181-190 | for the argument: the text reads back as its nearest hundredth exactly when that fits and the argument is not above -0.995 and up to -0.005, where the negation is read |
| ScaledNumbers.NoTrailingZeros | src/image/template.rs:181-190 | a point is followed by one or two decimals, the last of them not zero |
| ScaledNumbers.OutOfRangeReads | src/image/template.rs:181-190 | beyond 64 bits a whole value reads as the nearest limit and any other as its fraction alone |
| CardText.ExpandBraces | src/image/template.rs:201-226 | the loop over open and close braces equals one pass over the characters |
| CardText.ExpandRendersPieces | src/image/template.rs:201-227 | however a text is cut into literals and braced bodies, literals are kept and bodies replaced, in order, and an unclosed end stays |
| CardText.EveryTextHasPieces | src/image/template.rs:201-227 | every text can be cut so |
| CardText.ScaledExactly | src/image/template.rs:206-218 | a body is replaced exactly when, one optional prefix dropped, it is two numerals around its first bar; the level acts through its clamp |
| CardLevels.FirstLevelIsTheBase | src/image/template.rs:211-218 | at level 1 a body of two numerals becomes its base, formatted |
| CardLevels.EachLevelAddsAStep | src/image/template.rs:211-218 | at levels 1 to 5 its text reads back as base + (level - 1) * step to the nearest hundredth, or as the negation where a minus sign is lost |
| CardLevels.LevelsAreClamped | src/image/template.rs:193 | lower levels read as level 1 and higher ones as level 5 |
| CardLevels.TagIsDropped | src/image/template.rs:194-199 | a leading tag in brackets goes, with the blanks around it |
| CardLevels.NoTagNothingDropped | src/image/template.rs:194-199 | without a leading bracket only the blanks around the text go |
| CardLevels.UnclosedTagStays | src/image/template.rs:194-199 | nor is a bracket that is never closed a tag |
| CardLevels.FirstBracesDecide | src/image/template.rs:203-226 | the first closed pair of braces is replaced by its value, or stays with its body when that cannot be read, and the rest follows |
| CardLevels.UnclosedBraceStays | src/image/template.rs:206-210 | a brace that is never closed stays, with everything after it |
| Spaces.CollapseKeepsWords | src/image/template.rs:228 | collapsing white space keeps the words in order and is done once |
| Spacing.WordsSplitAtWhite | src/image/template.rs:228 | the words of a text are those on the two sides of any white-space character |
| Spacing.CollapseIsCollapsed | src/image/template.rs:228 | what collapsing leaves has single spaces between words and none around them |
| CardText.ScaleCardDescription | src/image/template.rs:192-229 | tag off, pieces rendered for the clamped level, white space collapsed last |
| HtmlText.EscapeIsOnePass | src/image/template.rs:1165-1171 | the five chained replacements equal a single-pass substitution |
| HtmlText.EscapedHasNoSpecials | src/image/template.rs:1165-1171 | no raw angle bracket, quote or apostrophe is left |
| HtmlText.UnescapeUndoesEscape | src/image/template.rs:1165-1171 | decoding the entities gives the text back |
| UrlText.UrlEncode | src/image/template.rs:1173-1188 | the loop over characters is the byte-wise percent encoding of the UTF-8 text (sections 2.1 and 2.3 of RFC 3986) |
| UrlText.UrlIsWellEscaped | src/image/template.rs:1173-1188 | only unreserved characters and upper-case escapes come out |
| UrlText.UrlReadsBack | src/image/template.rs:1173-1188 | decoding the escapes and the UTF-8 gives the text back |
| UrlText.BytesAsWritten | src/image/template.rs:1173-1188 | the spelled-out unreserved characters stand for themselves and every other byte is written as two hexadecimal digits |

## Left out

- Rust `snapshot`: reports the largest sample as `last` too, which its comment admits; it takes the two locks in the other order, so no deadlock freedom is claimed.
- The "queue is closed" error of the Rust queue: nothing ever closes the semaphore.
- Fairness of the semaphore: permits may go to waiters in any order, so no first-come order is claimed for the Rust queue.
- CdpClientRuns.RunKeepsInv: for runs of fewer than 2^64 calls; `ReusedIdClosesEarlierCall` shows what a reused id does.
- CdpClientRuns.QuiescentMeansSettled: a call waiting on a full outgoing channel is left out, since sending has no deadline; progress is claimed from the send, or its failure, on.
- ImageServices.ImageService.RenderWithRecovery: the loop is tied to a run in which nothing else happens between its steps; `RenderService` covers every interleaving.
- LegacyService.RenderService.RenderWithRecovery: likewise.
- LegacyTimers.AtMostTwoAttemptsForEachSlot: for a `timeoutMs` of at least 2, where the attempt's timer is the shorter (the configuration asks for 1000); browser restarts after an attempt are not counted as attempts.
- The lookup queue of the Node service: left open, since the in-flight map already allows one lookup for each key.
- RateLimits.KeysAreIndependent, and the bounds after it: for claims whose times do not decrease. The source reads its clock before taking the lock, so two claims may swap.
- AssetCatalog.AnswerIsFirstSearch, and the methods of `AssetCatalog.Catalog`: lookups are serialized, one finishing before the next; only for talents, where it matters what an overlapping lookup records, is overlap modelled too.
- AssetCatalog.MemoIsFaithfulExactlyWhenSpelledAlike: the normalization maps `S` and `R` to their lower-case letters and drops colons, as lower-casing and filtering do; final sigma, which depends on its neighbours, is not modelled.
- Directory reading, JSON parsing and numeral parsing: parameters.
- CardText.ScaleCardDescription: values are exact reals, so binary rounding, infinities and not-a-number are not modelled.
- `match_party_numbers`: a numbering of parties by first appearance, easier than the rest.
- The Node `scaleCardDescription`: it treats nested braces differently, so no equality is stated.
- HTTP, Discord, the browser process, WebSocket transport, TLS and token signing, embed wording and Elo estimation: outside the model.
