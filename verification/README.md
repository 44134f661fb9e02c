# Backend pipeline: model and proofs

A Dafny model of the parts of the backend that hold the most state and the most arithmetic, with proofs over all
inputs, all runs and all interleavings. `dafny verify dfyconfig.toml` checks everything.

## What is modelled

**Enrichment job.** `EnrichmentProtocol` is a transition system. A step is one database transaction or one queue
operation: enqueue, dequeue, mark processing, mark completed, count a failure, mark retrying or failed, increment the
job's counters, publish progress, finalize, and the user's reset of failed batches. Any number of workers and resets
interleave. `EnrichmentInvariant` is one inductive invariant for all of them, `EnrichmentTheorems` and
`EnrichmentProgress` draw the promises from it, and `EnrichmentWitnesses` gives runs on which stronger promises fail,
put together with `EnrichmentRuns`. `EnrichmentStore` is the worker, the fan-out and the manual retry as a class that
updates the rows in place: its small methods are one step each, and the batch processor, its failure path and the two
enqueue loops are put together from them and proved to be runs of the protocol; `EnrichmentAttempts` says what one
attempt does and records as a whole, and what a sequence of them adds up to. `Batching` packs articles into batches and
plans the job's rows; `EnrichmentJob` joins the two.

**Boolean query text.** `BooleanQuery` prints, `QueryTokens` is the preview's tokenizer with its backtracking quoted
strings, and `TokenGrammar` says what it recognises without its scanners. `QueryRoundTrip` and `QueryReadback` prove when
the tokenizer reads the printed values back, and `QueryContents` which values those are and where they stand, in terms
of the input alone.

**Index resolver.** `Calendar` is the proleptic Gregorian UTC calendar of section 21.4.1 of ECMA-262, and `Indices` the
day and month loops, the patterns they emit and what those patterns match. `IndexCoverage` says, by the indices' own
names, which of them the resolver's answer reaches and which it does not, in both modes.

**Caches and canonical results.** `ClientCache` is the per-configuration client map, proved to refine a cache with
explicit last-use times. `Ranking` and `SampleClassifier` are the baseline prober; `ClassifierTheorems` and
`ClassifierFindings` say what it infers and asks, and how sure it is, from the sample alone. `BulkInsert` is the page and
chunk loops over a table that skips duplicates.

**Conversation.** `Wizard` is the slot-filling state machine, `FlowState` the stored flow state, `DraftQueries` the
draft rows, and `ReachConsent` the handshake between search runs, replies and background tasks. `LostProbes` says
when a probe can be overwritten, and shows an upgrade that is set back. `ReachConsentChat` is the mutable form, up to the whole side effect of a reply and a
whole search run.

`JsonCleanup` is the text stripping before a model's answer is parsed. `Outcomes`, `Sums` and `Text` are shared helpers.

## Assumptions

- A `withUser` or `asAdmin` transaction is atomic, and so is the synchronous half of a reply.
- In the enrichment protocol a failure of the work happens before the `completed` write, and database calls from that
  write on succeed. The queue delivers each entry once, in any order.
- A model response is an arbitrary list of article ids with arbitrary token counts, or a failure.
- The choice parser is a fixed function of its input: the synchronous step and the background task see the same answer.
- `localeCompare` is a strict total order on distinct terms.

## What turned out not to hold

- With a manual reset a job can be declared `completed` while a batch is pending, although the comment above
  `finalizeJob` says every batch is then completed. It happens with two batches when the reset comes before the last
  count (`CompletedTooEarly`), and with one batch when it comes between the count and `finalizeJob`
  (`ResetBeforeFinalize`). `FinalizerIsEarly` says exactly when finalizeJob reads unfinished batches, `StatusIsWrong`
  exactly when it then writes `completed` over them, and `QuiescentStatus` that the status is right once everything has
  come to rest.
- A response that names an article twice is accepted and takes the job past 100 percent (`RepeatedAnswerOvershoots`).
  The processed count stays within the articles in every run if and only if no batch accepts a response with more
  entries than it has articles (`BoundedIffAnswersFit`); the worker could check that before it writes.
- Two workers may publish their percents in the wrong order (`PublishedOutOfOrder`), though the job row's percent never
  drops. The published percents of a job ascend if and only if no worker publishes while a counted batch with a smaller
  percent is still to be published (`LogAscendsIffNobodyOvertakes`).
- A brand or competitor that ends in a backslash is not read back from the printed query (`BackslashBrandIsMisread`);
  `QueryReadsBack` is an if-and-only-if.
- A date range of more than 36 calendar months is not covered, and neither is one that starts in the years 0 to 99,
  because `Date.UTC` reads those as 1900 to 1999: January 5 of the year 26 is looked for under 1926 (`Year26IsMissed`).
  These are the only failures, in either mode (`DaywiseCoversIff`, `MonthwiseCoversIff`).
- For the same reason a range that ends in the years 0 to 99 can ask for indices outside it (`EveryPatternTouchesIff`),
  and a wider range can lose indices that a range inside it finds (`DaywiseKeepsIff`, `MonthwiseKeepsIff`, which say
  exactly when not). One case is left over even within those years: 1900 was no leap year, so February 29 of the year 0
  is read as March 1, 1900.
- With an `@` in a user name, two users can share a cached client (`WrongClient`, `AloneIffNoAt`).
- A reach probe can be overwritten without being answered (`LosesAProbe`), and then no reply accepts until a search run
  enters another one (`NoAcceptanceUntilNextProbe`). This can happen if and only if, at the moment the probe is entered,
  some accepted consent has not yet written its state (`ProbeLostIffConsentUnderWay`).
- A user who sets the type back to standard between an upgrade's patch and its read-back turns the upgrade into a
  standard dispatch (`LosesAnUpgrade`); nothing else does (`UpgradeLostIffResetToStandard`).
- With an empty sample the prober reports confidence 0 also for fields that are already set, where any other sample
  gives 1 (`CertainIffSetAndSampled`).
- Stripping a model's answer twice is not always stripping it once: a fence inside a fence takes two passes
  (`TwoFencesTakeTwo`). That happens exactly for a text without any bracket that is a fenced block around a fenced block
  (`TwiceDiffersIff`).
- `patchParams` contains a branch for entering `complete`, but no patch ever enters it (`PatchParams`,
  `CompleteIffHandedOff`).

## Model

| member | source | states |
|---|---|---|
| EnrichmentInvariant.PlannedInv | app/backend/src/agents/enrichment.agent.ts:166-205 | The rows the agent writes for a job satisfy the protocol invariant: one owner per unfinished batch, balanced counters. |
| EnrichmentInvariant.StepKeepsInv | app/backend/src/workers/enrich-batch.worker.ts:79-443 | Every step of a worker, of the queue or of a manual reset keeps the invariant. |
| EnrichmentInvariant.RunKeepsInv | app/backend/src/workers/enrich-batch.worker.ts:79-443 | So does every run, in any interleaving. |
| EnrichmentTheorems.VerdictClassifies | app/backend/src/workers/enrich-batch.worker.ts:323-343 | Over finished batches the final status is completed, failed or partial exactly as none, all or some batches failed. |
| EnrichmentTheorems.FinalizesExactlyOnce | app/backend/src/workers/enrich-batch.worker.ts:284-348 | Without a batch reset, a run that drains finalizes exactly once, writes the verdict of the final rows, has every batch finished and has counted each batch once. |
| EnrichmentTheorems.FinalizerSeesFinishedBatches | app/backend/src/workers/enrich-batch.worker.ts:318-343 | Without a batch reset, whoever is about to finalize sees only finished batches, is the first to do so, and no worker can still change one. |
| EnrichmentTheorems.QuiescentStatus | app/backend/src/services/enrichment.service.ts:718-746 | With resets at any moment: once nothing is pending, queued or active, the status classifies the current rows and batchesCompleted is the batch count plus the number of batch resets. |
| EnrichmentTheorems.FinalizerIsEarly | app/backend/src/workers/enrich-batch.worker.ts:331-343 | At the moment finalizeJob reads the rows some batch is unfinished if and only if the batches counted or about to be counted are fewer than the batch count plus the batch resets. |
| EnrichmentTheorems.StatusIsWrong | app/backend/src/workers/enrich-batch.worker.ts:323-343 | It writes failed exactly over failed batches only, and completed over a batch that is not completed exactly when it is early in that sense and no batch is failed at that moment. |
| EnrichmentTheorems.CountersConserved | app/backend/src/workers/enrich-batch.worker.ts:222-252 | Once drained, resets included, the job's token totals and processed count are the sums over the completed batch rows. |
| EnrichmentTheorems.TotalsAreTheAnswers | app/backend/src/workers/enrich-batch.worker.ts:222-252 | And they are the sums of the sizes and tokens of the responses accepted during the run. |
| EnrichmentTheorems.CompletedRowsHoldTheirAnswers | app/backend/src/workers/enrich-batch.worker.ts:222-243 | In every run a batch row keeps its articles, and a completed one holds the ids and tokens of the last response accepted for it. |
| EnrichmentTheorems.StatusTellsThePhase | app/backend/src/workers/enrich-batch.worker.ts:84-90 | In every run, resets included, an unfinished batch is pending before the first attempt of its chain, processing during one and retrying between two. |
| EnrichmentProgress.ProgressBounded | app/backend/src/workers/enrich-batch.worker.ts:290-316 | If batches partition the articles and no response has more entries than its batch has articles, the processed count never passes the article count and no percent, stored or published, leaves 0 to 100. |
| EnrichmentProgress.ProcessedIsAtMostTheLimits | app/backend/src/workers/enrich-batch.worker.ts:245-252 | Over runs with bounded responses, resets included, the processed count reaches the sum of the bounds and never passes it. |
| EnrichmentProgress.BoundedIffAnswersFit | app/backend/src/workers/enrich-batch.worker.ts:245-252 | The processed count stays within the articles in every run if and only if no batch accepts a response with more entries than it has articles. |
| EnrichmentProgress.OwnArticlesFit | app/backend/src/workers/enrich-batch.worker.ts:245-252 | Corollary: a response that names articles of its own batch, each at most once, is short enough. |
| EnrichmentProgress.LogAscendsIffNobodyOvertakes | app/backend/src/workers/enrich-batch.worker.ts:303-316 | Once a job has come to rest its published percents ascend if and only if no worker published past a counted batch with a smaller percent. |
| EnrichmentProgress.PercentNeverDrops | app/backend/src/workers/enrich-batch.worker.ts:290-306 | No step lowers the percentage derived from the job row. |
| EnrichmentTheorems.StepLowersMeasure | app/backend/src/workers/enrich-batch.worker.ts:383-443 | Every step except the manual reset lowers an explicit measure. |
| EnrichmentTheorems.RunsAreBounded | app/backend/src/workers/enrich-batch.worker.ts:383-443 | A run takes at most 75 steps per batch and per batch reset, plus the resets, so it ends if the resets do. |
| EnrichmentTheorems.NeverStuck | app/backend/src/workers/enrich-batch.worker.ts:383-443 | A state where nothing but a reset can happen is exactly a drained one. |
| EnrichmentTheorems.OwnersAndAttempts | app/backend/src/workers/enrich-batch.worker.ts:72-77 | An unfinished batch has exactly one outstanding owner, a finished one none; a chain makes at most three attempts and a batch is failed only after three failures. |
| EnrichmentWitnesses.RepeatedAnswerOvershoots | app/backend/src/workers/enrich-batch.worker.ts:245-252 | A run from a planned job, without resets, in which a response naming an article twice publishes 200 percent. |
| EnrichmentWitnesses.PublishedOutOfOrder | app/backend/src/workers/enrich-batch.worker.ts:303-316 | A run from a planned job, without resets and with responses that fit, that publishes 100 percent and then 50. |
| EnrichmentWitnesses.CompletedTooEarly | app/backend/src/workers/enrich-batch.worker.ts:318-343 | A run with one reset, of a job of two batches, that is declared completed while a batch is pending. |
| EnrichmentWitnesses.ResetBeforeFinalize | app/backend/src/workers/enrich-batch.worker.ts:318-343 | The same for a job of one batch, the reset falling between the count and finalizeJob. |
| EnrichmentAttempts.AttemptIsRun | app/backend/src/workers/enrich-batch.worker.ts:79-443 | One uninterrupted call of the processor, the exception path included, is a run of the protocol. |
| EnrichmentAttempts.AttemptSettles | app/backend/src/workers/enrich-batch.worker.ts:79-443 | It finishes its ticket, with the batch completed or after a third failure failed, and counted once; or it puts the ticket back in the queue uncounted. Other tickets and batches are left alone. What it records is in the next rows. |
| EnrichmentAttempts.AnswerRecords | app/backend/src/workers/enrich-batch.worker.ts:222-316 | A response leaves exactly its ids and tokens in the row, whose articles stay; the counters grow by its length and tokens, the floor of the new percentage is published, and the last batch writes the verdict. |
| EnrichmentAttempts.FailureRecords | app/backend/src/workers/enrich-batch.worker.ts:383-443 | A failure moves no counter and no token field; the first two only set the row to retrying, the third to failed, counts the batch and publishes. |
| EnrichmentAttempts.CallsAddUp | app/backend/src/workers/enrich-batch.worker.ts:245-252 | Over any sequence of processor calls the totals grow by the sums over the responses given. |
| EnrichmentStore.Store.constructor | app/backend/src/agents/enrichment.agent.ts:169-201 | Creating the job leaves exactly the planned state. |
| EnrichmentStore.Store.RecordFailure | app/backend/src/workers/enrich-batch.worker.ts:383-395 | The retry count is incremented first, and the answer says whether a retry follows. |
| EnrichmentStore.Store.AdvanceProgress | app/backend/src/workers/enrich-batch.worker.ts:290-306 | The atomic increments, the percent they give and the finalize decision. |
| EnrichmentStore.Store.FinalizeJob | app/backend/src/workers/enrich-batch.worker.ts:331-349 | Counting failed rows in a loop writes the verdict of all rows. |
| EnrichmentStore.Store.FinalizeJobProgress | app/backend/src/workers/enrich-batch.worker.ts:290-321 | Counters, progress event and, when the counter says so, the final status, as one state change. |
| EnrichmentStore.Store.HandleBatchFailure | app/backend/src/workers/enrich-batch.worker.ts:383-443 | The first two failures put the batch back in the queue; the third fails it and still counts it. |
| EnrichmentStore.Store.EnrichBatchProcessor | app/backend/src/workers/enrich-batch.worker.ts:79-272 | One queue entry from pick-up to the end: the whole new state, which `AnswerRecords` and `FailureRecords` spell out, the invariant kept, a run of the protocol, the ticket finished or queued again, and the processor's result. |
| EnrichmentStore.Store.Act | app/backend/src/agents/enrichment.agent.ts:207-232 | The fan-out loop leaves every ticket in the queue once, with its batch and attempts, and changes nothing else. |
| EnrichmentStore.Store.ResetFailedBatches | app/backend/src/services/enrichment.service.ts:718-731 | The loop makes exactly the failed rows pending with no retries, keeping all else of them, and changes no other row. |
| EnrichmentStore.Store.RetryFailedBatches | app/backend/src/services/enrichment.service.ts:703-748 | Reset and enqueue loop together: exactly the failed rows pending again, one fresh queue entry per failed row, everyone else's untouched, the number of failed rows as the answer, the invariant kept. |
| EnrichmentJob.StartJob | app/backend/src/agents/enrichment.agent.ts:145-205 | Over the cap the job is rejected; otherwise the store holds the planned state of the packed batches, batch by batch with the ids at their indices, which flatten to the article ids. |
| EnrichmentJob.RunAgent | app/backend/src/agents/enrichment.agent.ts:145-232 | Planning and fan-out together are a run that leaves every planned batch in the queue exactly once. |
| EnrichmentJob.PlannedJobStaysInBounds | app/backend/src/agents/enrichment.agent.ts:166-205 | For every run of a planned job whose responses fit their batches the processed count stays within the number of articles. |
| Batching.CreateBatches | app/backend/src/lib/llm-gateway.ts:71-89 | The loop computes the greedy packing that the following lemmas are about. |
| Batching.GreedyPartitions | app/backend/src/lib/llm-gateway.ts:66-89 | The batches hold the indices 0 to n-1 in order, none empty, sums right, each within target or a single oversize article. |
| Batching.GreedyLeavesNoRoom | app/backend/src/lib/llm-gateway.ts:76-80 | A batch is closed only when the next article does not fit; together with the partition this leaves one possible packing. |
| Batching.GreedyIsOptimal | app/backend/src/lib/llm-gateway.ts:71-89 | No order-preserving split into such batches uses fewer. |
| Batching.GreedyHalfFull | app/backend/src/lib/llm-gateway.ts:71-89 | k batches hold at least floor(k/2) times (target + 1) tokens. |
| Batching.GreedyWithinTwice | app/backend/src/lib/llm-gateway.ts:71-89 | Against any grouping of the articles into m groups within target, contiguous or not, at most 2m - 1 batches are used. |
| Batching.PlanJob | app/backend/src/lib/llm-gateway.ts:96-113 | Planning fails exactly over the cap; otherwise the rows are numbered from 1, carry the packed ids and token sums and flatten to the article ids, and a row of several articles takes at most four fifths of the input window. |
| Batching.BatchesFitTheWindow | app/backend/src/lib/llm-gateway.ts:96-113 | A planned batch has the tokens of its articles, fits four fifths of the window unless it is a single article, and two neighbours together never do. |
| Batching.EstimateJob | app/backend/src/agents/enrichment.agent.ts:153-155 | The estimate is the token total plus the few-shot overhead per batch. |
| Batching.NumberRows | app/backend/src/agents/enrichment.agent.ts:183-201 | One row per batch, numbered from 1, with the ids at the batch's indices. |
| Batching.CapBoundsBatches | app/backend/src/agents/enrichment.agent.ts:145-164 | A job within the cap has at most cap/900 batches, and pays for half-full ones as well. |
| JsonCleanup.StripToJson | app/backend/src/lib/llm-gateway.ts:135-156 | The sequence of reassignments computes the cleanup the lemmas are about. |
| JsonCleanup.FencedGivesContent | app/backend/src/lib/llm-gateway.ts:135-141 | A fenced block with any white space around and inside it, tagged `json` or not, is stripped to its content. |
| JsonCleanup.UnfencedGivesItself | app/backend/src/lib/llm-gateway.ts:135-141 | Any other text is only trimmed. |
| JsonCleanup.CleanedCutsAtBrackets | app/backend/src/lib/llm-gateway.ts:142-156 | What is left then runs from its first opening bracket, if any, to the last closing one from there on, if any. |
| JsonCleanup.CleanedIsOneSlice | app/backend/src/lib/llm-gateway.ts:135-156 | With a closing bracket after the first opening one, all passes together are one slice from the first opening to the last closing bracket. |
| JsonCleanup.TwiceDiffersIff | app/backend/src/lib/llm-gateway.ts:135-156 | For any text, cleaning twice differs from cleaning once if and only if the text has no bracket and both it, trimmed, and the trimmed inside of its fence are fenced blocks. |
| JsonCleanup.CleanedIsIdempotent | app/backend/src/lib/llm-gateway.ts:135-156 | With an opening bracket, cleaning twice is cleaning once. |
| JsonCleanup.TwoFencesTakeTwo | app/backend/src/lib/llm-gateway.ts:137-141 | A text on which it is not: a fenced block inside a fence. |
| BooleanQuery.GenerateBooleanQuery | app/backend/src/lib/boolean-query-engine.ts:76-117 | Fails exactly for a blank brand; otherwise text and structured mirror are the specified ones. What they hold is in the rows of `QueryContents`. |
| QueryTokens.Highlight | app/frontend/components/chat/BooleanQueryPreview.tsx:218-245 | The matching loop yields the spans that `TokenGrammar.SpansStand` characterises, and their texts concatenate to the input. |
| QueryTokens.SpansAreLossless | app/frontend/components/chat/BooleanQueryPreview.tsx:218-245 | For any text the spans concatenate back to it. |
| TokenGrammar.MatchIsFirstChoice | app/frontend/components/chat/BooleanQueryPreview.tsx:211-211 | Where any token starts, the tokenizer takes the longest one of the first kind in the pattern's order, the kinds being given as properties of the text; elsewhere it takes none. |
| TokenGrammar.SpansStand | app/frontend/components/chat/BooleanQueryPreview.tsx:218-256 | The spans of any text are, without gaps, the tokens so taken, each in the class of its kind, and the whole stretches between them, plain. |
| QueryTokens.ValueClass | app/frontend/components/chat/BooleanQueryPreview.tsx:247-256 | Corollary of the definitions: the tokens classified as values are exactly those that start with a quote. |
| QueryTokens.SpansGiveValues | app/frontend/components/chat/BooleanQueryPreview.tsx:218-256 | Reading the value spans equals reading the quoted matches of the text directly. |
| QueryRoundTrip.ScansValue | app/frontend/components/chat/BooleanQueryPreview.tsx:211-211 | An escaped value without trailing backslash ends its token at its own closing quote. |
| QueryRoundTrip.ScansPast | app/frontend/components/chat/BooleanQueryPreview.tsx:211-211 | A value that ends in a backslash makes the matcher run past its closing quote. |
| QueryRoundTrip.UnescapesPrefix | app/backend/src/lib/boolean-query-engine.ts:45-49 | Unescaping undoes escaping, also in front of further text. |
| QueryRoundTrip.ReadsSlots | app/frontend/components/chat/BooleanQueryPreview.tsx:211-245 | A text of quoted slots reads back as its values if and only if none but the last ends in a backslash. |
| QueryReadback.QueryIsSlots | app/backend/src/lib/boolean-query-engine.ts:84-104 | The printed query is such a text of slots. |
| QueryReadback.QueryHolds | app/backend/src/lib/boolean-query-engine.ts:51-61 | Its slots are the brand once per brand field, each cleaned competitor once per competitor field, and the language. |
| QueryReadback.QueryReadsBack | app/backend/src/lib/boolean-query-engine.ts:45-117 | Tokenizing and unescaping the printed query gives back exactly those values if and only if no competitor of the input, trimmed, and not the brand, ends in a backslash. |
| QueryContents.KeepsNonBlank | app/backend/src/lib/boolean-query-engine.ts:86-88 | Cleaning keeps exactly the competitors that are not blank, trimmed, in input order and with their multiplicity. |
| QueryContents.ReadsEverything | app/backend/src/lib/boolean-query-engine.ts:45-117 | Reading back finds the trimmed brand once per brand field, then exactly those competitors of the input once per competitor field, then the language. |
| QueryContents.SlotsAreNamed | app/backend/src/lib/boolean-query-engine.ts:51-61 | Each brand value is printed under its own brand field and the language under its own, and there are no other values. |
| QueryContents.CompetitorsAreNamed | app/backend/src/lib/boolean-query-engine.ts:56-61 | So is each competitor under each competitor field. |
| QueryContents.GapsAre | app/backend/src/lib/boolean-query-engine.ts:84-104 | Between them stands what joins the alternatives by OR in parentheses and the parts by AND, with the date clause right before the language. |
| QueryContents.GapsWithoutCompetitors | app/backend/src/lib/boolean-query-engine.ts:84-104 | The same when no competitor is left. |
| QueryContents.DatesArePrinted | app/backend/src/lib/boolean-query-engine.ts:94-104 | A date clause, start before end, is printed if and only if both dates are given. |
| QueryContents.MirrorAgrees | app/backend/src/lib/boolean-query-engine.ts:76-117 | The mirror's brand unescapes to the trimmed brand; its competitors, fields, dates and language are the input's, or the defaults. |
| QueryReadback.BackslashBrandIsMisread | app/backend/src/lib/boolean-query-engine.ts:45-61 | A printed query, given in full, whose brand ends in a backslash and which is not read back. |
| Calendar.FirstDayIsClosedForm | app/backend/src/lib/opensearch-indices.ts:34-37 | Month starts counted month by month agree with the day-from-year formula of ECMA-262. |
| Calendar.MonthUnique | app/backend/src/lib/opensearch-indices.ts:107-110 | The month found for a day is the only one the day lies in. |
| Calendar.MonthMonotone | app/backend/src/lib/opensearch-indices.ts:107-115 | Later days lie in later months. |
| Calendar.MonthTextTells | app/backend/src/lib/opensearch-indices.ts:40-48 | A month's text is a prefix of a day's text if and only if the day lies in the month. |
| Calendar.StartsInTheNineteens | app/backend/src/lib/opensearch-indices.ts:34-37 | Date.UTC puts a day of the years 0 to 99 into the month it makes of the day's month, 1900 years on, except for February 29 of the year 0. |
| Indices.VisitMonths | app/backend/src/lib/opensearch-indices.ts:105-116 | Between the months Date.UTC makes of the two ends, the loop visits the first days of consecutive months, all of them up to 36. |
| Indices.VisitDays | app/backend/src/lib/opensearch-indices.ts:117-124 | Between the days Date.UTC makes of the two ends, the loop emits every day of at most 28; its guard of 90 never ends it. |
| Indices.GetDaywiseIndices | app/backend/src/lib/opensearch-indices.ts:96-126 | Daywise resolution is the catch-all pattern and the date patterns of the range, by days or months as the distance of the days Date.UTC makes decides. |
| Indices.GetMonthwiseIndices | app/backend/src/lib/opensearch-indices.ts:129-160 | Monthwise resolution is the patterns of each visited month, per requested group; which indices they reach is in the rows of `IndexCoverage`. |
| Indices.ResolveIndices | app/backend/src/lib/opensearch-indices.ts:69-93 | The result is exactly the dated patterns of the mode and the standalone indices of the requested media types; which indices that reaches is in the rows of `IndexCoverage`. |
| Indices.CoversIffWithin36Months | app/backend/src/lib/opensearch-indices.ts:96-126 | The emitted date patterns match every day of a non-empty range, whatever the suffix of its index, if and only if the range spans at most 36 calendar months and does not start in the years 0 to 99. |
| IndexCoverage.DaywiseCoversIff | app/backend/src/lib/opensearch-indices.ts:34-126 | For whatever media types, the resolver's daywise answer reaches every daily index of the range if and only if the range is empty, or spans at most 36 calendar months and does not start in the years 0 to 99. |
| IndexCoverage.DaywiseReachesExactly | app/backend/src/lib/opensearch-indices.ts:96-126 | A day's bare index is reached if and only if the day lies between the ends as Date.UTC reads them or, for more than 28 days, in one of the first 36 of their months. |
| IndexCoverage.MonthwiseCoversIff | app/backend/src/lib/opensearch-indices.ts:69-160 | Its monthwise answer reaches every firehose, opoint or twingly index of every month of the range, where that family is asked for, under the same condition. |
| IndexCoverage.MonthwiseReachesExactly | app/backend/src/lib/opensearch-indices.ts:129-160 | A day's index of a family asked for is reached if and only if its month is one of the first 36 from the first to the last, as Date.UTC reads them. |
| IndexCoverage.PlatformsAreQueried | app/backend/src/lib/media-types.ts:38-49 | In every mode, for each of the eight standalone families of indices: its names are queried if and only if a media type they belong to is asked for. |
| IndexCoverage.FamilyOnlyIfAsked | app/backend/src/lib/opensearch-indices.ts:129-160 | An index of a monthly family is queried only in monthwise mode, for a range with a month in it, and if its media type is asked for. |
| IndexCoverage.OthersAreQueried | app/backend/src/lib/opensearch-indices.ts:145-158 | The firehose's and twingly's indices outside the months are queried exactly then. |
| IndexCoverage.DailyDataByMode | app/backend/src/lib/opensearch-indices.ts:69-104 | In daywise mode all daily data is queried without a range, and its old archive always; in monthwise mode none but the bare `amx-data`, and that without a range. |
| IndexCoverage.Year26IsMissed | app/backend/src/lib/opensearch-indices.ts:34-37 | January 5 of the year 26: the index name, the one pattern emitted, and that the resolver's answer does not reach the index. |
| Indices.EveryPatternTouchesIff | app/backend/src/lib/opensearch-indices.ts:105-124 | Every emitted date pattern matches the index of some day of the range if and only if the range does not end in the years 0 to 99, or starts before them and spans 36 months or more. |
| Indices.RangeMatchesDay | app/backend/src/lib/opensearch-indices.ts:96-126 | Whatever the pattern of one day of the range matches, the range matches, under the condition of coverage. |
| Indices.WideningIff | app/backend/src/lib/opensearch-indices.ts:96-126 | The date patterns of a range match every name that those of any range inside it match if and only if it spans at most 36 months, both or neither of its ends lie in the years 0 to 99, and it does not end on February 29 of the year 0 after more than 27 days. |
| IndexCoverage.DaywiseKeepsIff | app/backend/src/lib/opensearch-indices.ts:69-126 | The same of the resolver's daywise answer, for whatever media types, also across the switch from days to months. |
| IndexCoverage.MonthwiseKeepsIff | app/backend/src/lib/opensearch-indices.ts:69-160 | The same of its monthwise answer where one of the three families is asked for, without the last condition. |
| ClientCache.Cache.constructor | app/backend/src/lib/opensearch-client.ts:89-89 | The cache starts empty. |
| ClientCache.Cache.EvictExpired | app/backend/src/lib/opensearch-client.ts:100-105 | Deleting during the iteration leaves exactly the entries no older than an hour, in order. |
| ClientCache.Cache.EvictLruIfFull | app/backend/src/lib/opensearch-client.ts:107-115 | The first entry goes if and only if there are 100. |
| ClientCache.Cache.GetOpenSearchClientForConfig | app/backend/src/lib/opensearch-client.ts:122-142 | At most 100 entries with distinct keys, none kept older than an hour; the client is that of a kept entry for the key, dated as before, if there is one, and otherwise built with exactly this configuration; its entry is the last. |
| ClientCache.CallRefines | app/backend/src/lib/opensearch-client.ts:122-142 | Every call is a step of a cache with explicit last-use times. |
| ClientCache.CacheRefinesLru | app/backend/src/lib/opensearch-client.ts:91-142 | Over every call sequence the map answers as that cache does; its first entry is the least recently used and there are at most 100. |
| ClientCache.SameClientAgain | app/backend/src/lib/opensearch-client.ts:107-128 | A configuration asked for again before 100 other keys, its client never older than an hour, gets the same client. |
| ClientCache.RightClient | app/backend/src/lib/opensearch-client.ts:91-98 | For user names without `@`, every client returned was built for that user name and address. |
| ClientCache.AloneIffNoAt | app/backend/src/lib/opensearch-client.ts:91-98 | A configuration shares its key with no other user or address if and only if neither part contains `@`. |
| ClientCache.WrongClient | app/backend/src/lib/opensearch-client.ts:91-98 | With an `@` in a user name one user is handed another's client. |
| Ranking.CountTerms | app/backend/src/lib/sample-classifier.ts:138-149 | The counting map holds every term's number of occurrences, its keys in order of first occurrence. |
| Ranking.CountAndRank | app/backend/src/lib/sample-classifier.ts:150-158 | Counting, filtering by the threshold and sorting give the ranking function. |
| Ranking.RankingRanks | app/backend/src/lib/sample-classifier.ts:130-158 | It is strictly sorted and holds exactly the terms that occur often enough, with their counts. |
| Ranking.RankingUnique | app/backend/src/lib/sample-classifier.ts:154-158 | There is only one such list for given counts. |
| Ranking.RankingIsCanonical | app/backend/src/lib/sample-classifier.ts:135-158 | The order in which terms were seen does not matter. |
| SampleClassifier.FindDateBounds | app/backend/src/lib/sample-classifier.ts:162-179 | One pass finds the bounds of the dates present. |
| SampleClassifier.GatherEvidence | app/backend/src/lib/sample-classifier.ts:278-440 | The four rankings and bounds are read off the merged samples. |
| SampleClassifier.CollectStats | app/backend/src/lib/sample-classifier.ts:226-241 | Per-source statistics, source by source; what they say is in `ClassifierFindings.SourceStats`. |
| SampleClassifier.ClassifyAndProbe | app/backend/src/lib/sample-classifier.ts:267-513 | The imperative form of the whole result, empty sample included: merging, per-source statistics and the order in which findings are made and sorted. It calls the finding functions; what they mean is in the rows of `ClassifierTheorems` and `ClassifierFindings`. |
| ClassifierTheorems.BoundsBound | app/backend/src/lib/sample-classifier.ts:161-179 | The bounds are the smallest and largest date, absent exactly when there is none. |
| ClassifierTheorems.ResultIsCanonical | app/backend/src/lib/sample-classifier.ts:37-39 | Permuting the sample articles within any source leaves the whole result equal. |
| ClassifierTheorems.BrandInferredIff | app/backend/src/lib/sample-classifier.ts:280-298 | A brand is inferred if and only if none is set and some term occurs three times and at least half as often as there are articles; it is a most frequent term. |
| ClassifierTheorems.CompetitorsAreTheNextSix | app/backend/src/lib/sample-classifier.ts:328-332 | The competitor chips are the entities ranked two to seven; filtering out the inferred brand removes none. |
| ClassifierTheorems.CertainIffSetAndSampled | app/backend/src/lib/sample-classifier.ts:267-513 | A field has confidence 1 if and only if it is set and there is some sample article; without any, set fields get 0 as well. |
| ClassifierFindings.BoundsAreExtremes | app/backend/src/lib/sample-classifier.ts:161-179 | The bounds are the earliest and the latest date of the articles, given as articles. |
| ClassifierFindings.DatesAreInferred | app/backend/src/lib/sample-classifier.ts:355-372 | Dates are inferred if and only if none are set and the dated articles, of which there is one, lie within 60 full days; they are the days of an earliest and a latest article, start first. |
| ClassifierFindings.DateConfidences | app/backend/src/lib/sample-classifier.ts:355-391 | The confidence in dates that are not set, from the number of articles, their dates and their span. |
| ClassifierFindings.DateProbe | app/backend/src/lib/sample-classifier.ts:355-391 | Dates are asked for exactly when none are set and the dated articles span more than 60 days, with the four ranges as chips. |
| ClassifierFindings.BrandIs | app/backend/src/lib/sample-classifier.ts:278-322 | The most mentioned term is inferred exactly when no brand is set and it has half as many mentions as there are articles; confidence and rationale are given by its mentions. |
| ClassifierFindings.BrandProbe | app/backend/src/lib/sample-classifier.ts:278-322 | The brand is asked for exactly when none is set and no term has mentions for 7 of 10 articles; the chips are the five most mentioned terms with their counts. |
| ClassifierFindings.CompetitorProbe | app/backend/src/lib/sample-classifier.ts:324-353 | Competitors are asked for exactly when none are set and there is a second term with three mentions; the chips are the terms ranked two to seven. |
| ClassifierFindings.LanguageIs | app/backend/src/lib/sample-classifier.ts:393-415 | Languages are asked for exactly when the most frequent has less than 7 of 10 articles, all of them in rank order; otherwise its share is the confidence, at most 0.95. |
| ClassifierFindings.MediaIs | app/backend/src/lib/sample-classifier.ts:417-460 | Media types are asked for exactly when none are set and some article from OpenSearch has one, all of them with counts in rank order. |
| ClassifierFindings.ChoiceProbes | app/backend/src/lib/sample-classifier.ts:462-493 | Intention and enrichment type are asked for exactly when not set, each with its two chips. |
| ClassifierFindings.SourceStats | app/backend/src/lib/sample-classifier.ts:226-241 | Each source's statistics are those of its own articles: number, terms, days of its earliest and latest article, languages by frequency. |
| ClassifierFindings.EmptySample | app/backend/src/lib/sample-classifier.ts:515-600 | Without articles nothing is inferred, all confidences are 0 and exactly the unset fields other than language and media types are asked for. |
| ClassifierTheorems.SortedLowestFirst | app/backend/src/lib/sample-classifier.ts:495-500 | The probes shown are the probes made, lowest confidence first. |
| ClassifierFindings.ProbesComeInOrder | app/backend/src/lib/sample-classifier.ts:495-500 | Of equally certain fields the one looked at first is asked about first, so the order is fixed. |
| BulkInsert.Articles.CreateMany | app/backend/src/services/article-bulk-insert.service.ts:73-93 | Rows with known ids are skipped, also within one call; the count is the number added. |
| BulkInsert.Articles.BulkInsertArticles | app/backend/src/services/article-bulk-insert.service.ts:61-98 | For every chunk size, 500 if none is given, the table is that of one insert, the count is the number of distinct new ids and the chunks are those `ChunksRoundUp` counts; a size of 0 or less fails and changes nothing. |
| BulkInsert.ChunksRoundUp | app/backend/src/services/article-bulk-insert.service.ts:71-95 | The number of chunks is the number of rows over the chunk size, rounded up. |
| BulkInsert.Articles.FetchPages | app/backend/src/agents/search.agent.ts:321-389 | However the articles are paged, table, count, id list and the sample of the first min(50, n) depend only on the articles consumed. |
| BulkInsert.ConsumesUpToTheEnd | app/backend/src/agents/search.agent.ts:321-389 | The articles consumed are those of all pages up to the first that is empty or marked as the last. |
| BulkInsert.Collect | app/backend/src/agents/search.agent.ts:357-364 | The presence sample takes the first rows until it has 50. |
| BulkInsert.CountsNewIds | app/backend/src/services/article-bulk-insert.service.ts:43-49 | An insert adds exactly one row per distinct id that was not there. |
| BulkInsert.FirstRowWins | app/backend/src/services/article-bulk-insert.service.ts:73-93 | What is added is, in order, the rows that first bring a new id. |
| BulkInsert.InsertKeepsUnique | app/backend/src/services/article-bulk-insert.service.ts:5-8 | Ids stay unique in the table. |
| BulkInsert.InsertConcat | app/backend/src/services/article-bulk-insert.service.ts:71-95 | Inserting in two steps or in one is the same. |
| BulkInsert.RerunInsertsNothing | app/backend/src/services/article-bulk-insert.service.ts:44-46 | Running an insert again adds nothing. |
| BulkInsert.ResumeAfterFailure | app/backend/src/services/article-bulk-insert.service.ts:10-15 | A run that failed midway and is run again in full leaves what one full run leaves. |
| BulkInsert.PagesAreOneInsert | app/backend/src/agents/search.agent.ts:321-389 | Page by page is one insert of all consumed articles. |
| Wizard.StateIsFirstUnfilled | app/backend/src/agents/orchestrator-state.ts:185-203 | In every run, after the welcome state, the state is the first-unfilled-slot function of the accumulated context. |
| Wizard.ReadyMeansComplete | app/backend/src/agents/orchestrator-state.ts:222-353 | A run is ready if and only if all five slots hold valid values. Which values these are is in the next row. |
| Wizard.SlotsHoldTheAnswers | app/backend/src/agents/orchestrator-state.ts:222-353 | In every run each filled slot holds the choice, for the brand the trimmed text, of the very input given in the state that asks for it. |
| Wizard.ReplyStores | app/backend/src/agents/orchestrator-state.ts:222-353 | A single input changes no slot but the one its state asks for, and that one to its own answer. |
| Wizard.SkipsToTheFirstMissing | app/backend/src/agents/orchestrator-state.ts:185-203 | The skip-ahead helper stops at the first state, in the wizard's order, whose answer is missing, a date range needing both ends. |
| Wizard.RankNeverDrops | app/backend/src/agents/orchestrator-state.ts:222-353 | Further inputs never take the conversation back, change no filled slot and move it at most one state each. |
| Wizard.ChipsAreTheWayOn | app/backend/src/agents/orchestrator-state.ts:143-164 | Corollary of the transition table: the chips returned are those of the new state, and in a state with chips exactly those choices move on. |
| Wizard.ChoicesLeadTo | app/backend/src/agents/orchestrator-state.ts:222-398 | Each state takes exactly its listed choices, and they lead to the next one. |
| Wizard.TextMovesOnlyWelcomeAndBrand | app/backend/src/agents/orchestrator-state.ts:222-313 | Corollary of the transition table: without a choice, text moves on only from welcome, and from the brand state if not blank. |
| FlowState.ChatParams.PatchParams | app/backend/src/services/chat-params.service.ts:109-199 | The row becomes the patched, settled row; a change is published exactly when the stored state moves, never to complete; a missing chat is an error. |
| FlowState.ChatParams.Confirm | app/backend/src/services/boolean-query.service.ts:124-150 | Confirming re-settles the row with a confirmed query, and publishes the change if the state moves. |
| FlowState.ChatParams.HandOff | app/backend/src/agents/data-extract.agent.ts:320-330 | The hand-off writes complete, and the next confirmation or empty patch keeps it if and only if every slot is filled and a query confirmed. |
| FlowState.PatchSettles | app/backend/src/services/chat-params.service.ts:171-196 | Corollary: after any patch an empty patch changes nothing. |
| FlowState.ColumnsHoldLastWrites | app/backend/src/services/chat-params.service.ts:109-140 | After any sequence of patches each column holds what the last patch that set or cleared it wrote. |
| FlowState.SettledIsFirstMissing | app/backend/src/agents/flow-engine.ts:32-41 | A row is settled if and only if its state is the first thing still missing. |
| FlowState.RankDropsIffSlotEmptied | app/backend/src/services/chat-params.service.ts:109-199 | From a settled row a patch lowers the rank if and only if it leaves empty a slot the state is past. |
| FlowState.CompleteIffHandedOff | app/backend/src/agents/data-extract.agent.ts:320-330 | A flow is complete if and only if a hand-off happened and every patch and confirmation since left all slots filled. |
| FlowState.NeverCompleteWithoutHandOff | app/backend/src/services/chat-params.service.ts:168-176 | Corollary of `CompleteIffHandedOff`: no sequence of patches and confirmations reaches complete. |
| DraftQueries.QueryService.FindLatestDraft | app/backend/src/services/boolean-query.service.ts:54-57 | The unconfirmed row with the highest version, if there is one. |
| DraftQueries.QueryService.GenerateQueryForChat | app/backend/src/services/boolean-query.service.ts:38-73 | All four outcomes: three errors, reuse of the top draft, or a new draft one version up. |
| DraftQueries.QueryService.PatchQueryText | app/backend/src/services/boolean-query.service.ts:85-112 | Blank text and a missing draft are errors; otherwise the trimmed text is pushed one version up with the old mirror. |
| DraftQueries.QueryService.ConfirmQuery | app/backend/src/services/boolean-query.service.ts:124-150 | The top draft is confirmed and its job enqueued, or it is an error. |
| DraftQueries.StepFollowsLatestDraft | app/backend/src/services/boolean-query.service.ts:38-150 | What each operation answers and leaves behind, told from the latest draft alone: reused, pushed one version up, edited with its mirror, or confirmed and enqueued. |
| DraftQueries.GeneratesIffBranded | app/backend/src/services/boolean-query.service.ts:38-43 | Generating fails exactly without parameters or without a brand that is not blank, with the error of each case. |
| DraftQueries.GeneratedHoldsTheParams | app/backend/src/services/boolean-query.service.ts:44-51 | What is generated holds the chat's own parameters: reading it back finds its brand, each of its competitors that are not blank, in order, and English; the dates are the chat's. |
| DraftQueries.DraftsAreAStack | app/backend/src/services/boolean-query.service.ts:38-150 | In every run the unconfirmed versions are exactly 1 to k and their texts are what pushing and popping gives. |
| DraftQueries.EarlierRowsNeverChange | app/backend/src/services/boolean-query.service.ts:75-80 | Later operations change no text, version or mirror of an existing row, and never unconfirm one. |
| DraftQueries.GenerateTwiceIsOnce | app/backend/src/services/boolean-query.service.ts:27-32 | Corollary: generating again with unchanged parameters adds nothing and answers the same row. |
| DraftQueries.OneJobPerConfirmedRow | app/backend/src/services/boolean-query.service.ts:124-142 | Each confirmed row has exactly one extraction job, and no other row has one. |
| ReachConsent.StepKeepsInv | app/backend/src/services/chat.service.ts:239-258 | Every step of a reply, a background task, a search run or a user's patch keeps the accounting of probes, acceptances and dispatches. |
| ReachConsent.AtMostOncePerProbe | app/backend/src/agents/orchestrator.agent.ts:157-185 | Over every run, consent dispatches number at most the accepted replies, and those at most the probes entered. |
| ReachConsent.OnceIfItFinishes | app/backend/src/services/reach-probe.service.ts:82-124 | A task that accepted dispatches exactly once if it finishes and never twice; one that did not accept never dispatches. |
| ReachConsent.AcceptsMeansValidChoice | app/backend/src/agents/orchestrator-state.ts:365-398 | Corollary of the transition table: a reply accepts if and only if it was given in the probe state with one of the two choices, clicked or parsed. |
| ReachConsent.ReplyWrites | app/backend/src/services/chat.service.ts:204-268 | A reply's chip, or failing a chip the parser's answer, or for the brand its text, goes to the slot the state asks for and moves the chat on if that state takes it; nothing else of the context changes. |
| ReachConsent.ConsentWrites | app/backend/src/services/reach-probe.service.ts:87-97 | An upgrade sets only the enrichment type, continuing without reach only the intention, to comment-based. |
| ReachConsent.PausedRunSendsNothing | app/backend/src/agents/search.agent.ts:472-543 | A paused run dispatches nothing; any other finished run dispatches once exactly when it inserted something. |
| ReachConsent.UpgradeSendsReach | app/backend/src/services/reach-probe.service.ts:87-123 | Over runs in which nobody sets the type back to standard, every upgrade dispatches reach enrichment. |
| ReachConsent.UpgradeLostIffResetToStandard | app/backend/src/services/reach-probe.service.ts:87-113 | An upgrade reads back standard if and only if the last type written between its patch and its read-back is standard. |
| LostProbes.LosesAnUpgrade | app/backend/src/services/reach-probe.service.ts:87-123 | A run from the start of a chat in which an accepted upgrade dispatches standard enrichment. |
| LostProbes.OnlyPinEndsProbe | app/backend/src/services/reach-probe.service.ts:99-100 | Without an accepted reply, only the state write of an earlier consent ends the probe state. |
| LostProbes.ProbeLostIffConsentUnderWay | app/backend/src/services/reach-probe.service.ts:59-100 | Over all runs from the moment a probe is entered: it can end with no reply accepted since if and only if some accepted consent has then not yet written its state. |
| LostProbes.NoAcceptanceUntilNextProbe | app/backend/src/agents/orchestrator.agent.ts:164-170 | Outside the probe state no reply accepts, in any run, until another probe is entered. |
| LostProbes.LosesAProbe | app/backend/src/services/reach-probe.service.ts:59-100 | A run from the start of a chat with two probes and one accepted reply after which the chat is not awaiting any more. |
| ReachConsentChat.Chat.StartStreamingReply | app/backend/src/services/chat.service.ts:204-268 | The synchronous half of a reply is one step, and answers the chips of the advanced state. |
| ReachConsentChat.Chat.ResolveReachProbe | app/backend/src/services/reach-probe.service.ts:82-124 | Patch, state write, read-back and publish in this order, up to the first call that fails. |
| ReachConsentChat.Chat.RunReachProbeSideEffect | app/backend/src/agents/orchestrator.agent.ts:157-185 | Gate, resolver and catch block: the whole new state, the accounting kept, a run of the handshake, and the task ended. |
| ReachConsentChat.SideEffectSettles | app/backend/src/agents/orchestrator.agent.ts:157-185 | The task ends with exactly one message, of reach for an upgrade and of the stored type otherwise, if the reply accepted and no call failed, and with none if not. |
| ReachConsentChat.Chat.ExecuteSearch | app/backend/src/agents/search.agent.ts:440-543 | A whole search run: with articles seen, standard enrichment stored and coverage below 0.8 it enters the probe and dispatches nothing; otherwise it dispatches once, with the stored type, exactly when it inserted something. It keeps the accounting and is a run of the handshake. |
| ReachConsentChat.Chat.SetChatProbeState | app/backend/src/services/reach-probe.service.ts:133-148 | The state is written, and only the state. |
| ReachConsentChat.Chat.ReflectOnRun | app/backend/src/agents/search.agent.ts:440-483 | The run pauses exactly for a non-empty sample, standard enrichment and coverage below 0.8, and then enters the probe. |
| ReachConsentChat.Chat.LearnFromRun | app/backend/src/agents/search.agent.ts:517-543 | A paused run stops; any other dispatches when it inserted something. |

## Left out

- Model calls, prompts, streaming text, reply templates, routes, authentication, row-level security and storage.
- The events `enrichment:batch-start`, `enrichment:batch-complete`, `enrichment:batch-error` and `enrichment:complete`,
  the error text and `processing_ms`. An accepted response's enrichment rows are represented by the ids it names.
- Duplicate delivery by the queue, and database failures after the `completed` write, which could count a batch twice.
- EnrichmentStore.Store.AdvanceProgress: the percent is the exact integer floor; the code divides in floating point.
- EnrichmentStore.Store.EnrichBatchProcessor: how the work on a batch ends is a parameter; prompt, model call, validation and enrichment rows are not modelled.
- EnrichmentStore.Store.RetryFailedBatches: the errors for a missing chat or job are not modelled.
- Batching.PlanJob: 80 percent of the input window is the exact integer floor, and token counts are given.
- EnrichmentJob.StartJob: assumes at least one article, which the agent checks before; the fan-out of `reach-fetch` is not modelled.
- JsonCleanup.StripToJson: ends before JSON.parse and the schema check.
- Strings are sequences of Unicode scalar values, not of UTF-16 code units.
- BooleanQuery.GenerateBooleanQuery: lower-casing of the language covers ASCII only, and dates are given as the text they are formatted to.
- QueryTokens.Highlight: colours are reduced to five classes, and key attributes are not modelled.
- QueryReadback.QueryReadsBack: field names, dates and the language are taken to be free of quotes.
- Indices.ResolveIndices: gives the set of names; the final sort and the environment variable are not modelled, nor are instants beyond the ends of the ECMA-262 time range.
- Ranges of more than 36 months beyond the fact that they are not covered.
- ClientCache.Cache.GetOpenSearchClientForConfig: a client is its configuration and a serial number; how it connects is not modelled.
- SampleClassifier.ClassifyAndProbe: tokenization, the platform-name patterns, the wording of questions, labels and rationales; an article carries its tokens and media type. Confidences are exact rationals, and inferred dates are days, not their text.
- BulkInsert.Articles.FetchPages: a failing page is a run over the pages before it; hit totals, index attribution and progress events are not modelled.
- Wizard.RankNeverDrops: is about the wizard alone; the reach states and the skip ahead after intent extraction, which is not written back on the streaming path, are not part of its runs.
- FlowState.ChatParams.PatchParams: the two transactions are one step; columns the flow does not depend on are not modelled.
- ReachConsent.AtMostOncePerProbe: the non-streaming reply path, a deleted chat and the event `reach:absent` are not modelled.
- ReachConsentChat.Chat.ResolveReachProbe: which of its calls fails is a parameter; the event `reach:resolved` is not modelled.
- ReachConsentChat.Chat.ExecuteSearch: is a run that throws nothing; failing runs are steps of the transition system only.
- Cipher, password and token internals, SimilarWeb fetching, CSV parsing and the thin CRUD services, which would only add easy members.
