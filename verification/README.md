# Verification of LLM-42

Dafny models of the parts of this repository that carry state, and proofs of what they promise.  `dafny verify dfyconfig.toml`
checks everything.

## What is modelled

**Decode-verify-rollback** (`python/sglang/srt/llm42`, and the scheduler and request code around it).  A request is decoded with
arbitrary drafts; each iteration it may be verified, rolled back, streamed, retracted and resumed.
`Verifier`, `DecodeVerifyRollback` and `Determinism` hold the specification and the invariant of a single request,
`DvrOutcomes`, `DvrSteps`, `DvrAnswers` and `DvrText` its consequences for runs without retractions, `DvrFailures` and `DvrRetraction`
those of retractions.  `VerificationBatch`, `BatchLayout`, `KvMemory`, `LLM42Worker`, `VerificationRun` and `GroupedVerification` are
the worker: objects and a key/value memory updated in place, batches flattened, padded and filled with dummy requests, proved to treat
each request as the specification does.  `SchedulerRuns` puts the two together for many requests at once.  `KvSlots` and
`PagedSlots` are the cache slot accounting, without and with pages.

**Trace conversion** (`SpanLayout`, `SpanLayoutTheorems`, `TraceVisits`, `TraceLayout`, `TraceOrder`, `SpanForest`): the display line allocator and the span forest.

**Workload protocols** (`Places`, `MultiTurn`, `MultiTurnPlaces`, `MultiTurnRounds`, `MultiTurnTheorems`, `MultiTurnLosses`, `MultiTurnOrder`,
`ConversationQueue`, `ConversationTheorems`, `MetricsCache`): state machines over all interleavings of their threads and tasks.

**Data preparation** (`Redirects`, `LineQueries`, `ReleaseIndex`, `ReleaseLookup`, `ReleaseSearch`, `TextSplit`, `Fractions`,
`BoxedAnswers`, `ChatFilter`, `WheelIndex`, `WheelPage`).

`Options`, `Sequences` and `Arithmetic` are shared helpers.

## What the proofs found

- A drafted end-of-sequence token that verification withdraws leaves its `finished_len` behind.  A request that later stops on a stop
  string is cut at that length, however it is streamed (`DvrAnswers.TokenIdsAreDeterministicIff`).  While a streamed request runs, tokens
  beyond that length are not handed to the detokenizer but count as handed over, so that the text loses them for good; whether this can
  happen depends on the stream interval, and a request that is not streamed loses no more text than token ids
  (`DvrText.TextIsDeterministicIff`).
- A mismatch at the last position of a window counts no token as rolled back, so that the batch is not brought up to date and the next
  decode is fed the rejected token (`Determinism.FedNextIsLastIff`).  Drafts are arbitrary in the model, and the commits do not depend on it.
- Verification sets the offset of sent log-probabilities to the end of the list, so that verified ones are not sent
  (`DvrText.LogprobsArriveIff`).
- `from_requests` truncates an overfull window, and its comment promises that this keeps the batch shape fixed, but `prepare_verify_batch`
  reads the untruncated drafts again; the counts then differ and the batch is rejected.  Only a retraction with at least a window of
  tokens less one unverified leads there (`DvrFailures.CrashesIff`), and every request that can outlive a window can be led there
  (`DvrFailures.CanCrashIff`).  The model follows the code.
- A request that a resuming prefill finishes is never delivered (`DvrFailures.UnansweredIff`).
- Retraction discards verifier cache entries.  Commits stay canonical exactly if the verifier goes on from the entries of every resuming
  prefill as it would from its own (`DvrRetraction.CommitsSurviveRetractionIff`).
- With pages, a rollback that does not start at a page boundary leaves a page both free and in use (`PagedSlots.PagesStayApartIff`), and
  the next request can be given the slot of a verified entry (`PagedSlots.AdmittedOntoVerified`).
- Zero-length spans break the disjointness of display lines (`SpanLayoutTheorems.LayoutDisjointIff`), and a root without spans three
  levels down ends the conversion with an error (`SpanForest.Convert`).
- A lost request leaves the driver of either workload protocol waiting, unless it was a failed response to the last request of its client;
  the multi-turn driver also needs fewer losses than requests allowed in parallel (`MultiTurnLosses.SenderLeavesIff`,
  `ConversationTheorems.PullsAreServedIff`).  With the barrier on, an earlier loss stops everybody (`MultiTurnLosses.EarlyLossStopsAll`).
- The release lookup page takes every query of digits only for a pull request, so that it does not find a commit by such characters of
  its hash (`ReleaseSearch.CommitIsFoundIff`).

## Model

| member | source | states |
|---|---|---|
| `Verifier.ReplayFollowsCanon` | python/sglang/srt/llm42/llm42_worker.py:577-724 | one verification pass over drafts reproduces the generation that the verifier would make alone, token, log-probability and cache entry alike, up to and including the answer at the first wrong draft |
| `DecodeVerifyRollback.FirstMismatch` | python/sglang/srt/llm42/llm42_info.py:672-689 | the result is the first position where drafts and verifier differ, or the shorter length if there is none |
| `Determinism.CommitIsGenerated` | python/sglang/srt/llm42/llm42_info.py:691-806 | whatever the drafts and wherever the cache of the verified part came from, a verification commits what the verifier would generate from there on its own: tokens, log-probabilities and cache entries |
| `Determinism.CommitIsCanonical` | python/sglang/srt/llm42/llm42_info.py:691-806 | if everything up to the verified mark is canonical, it is canonical again after a verification, whatever the drafts, their cache entries and log-probabilities were |
| `Determinism.CommitKeepsAgreed` | python/sglang/srt/llm42/llm42_info.py:753-790 | a commit keeps the agreed drafts and adds exactly one verifier token after a mismatch, none otherwise |
| `Determinism.FedNextIsLastIff` | python/sglang/srt/llm42/llm42_worker.py:679-701 | the token that the next decode is fed is the last token of the request if and only if the first mismatch was not at the last unverified position |
| `Determinism.VerifyStops` | python/sglang/srt/managers/schedule_batch.py:1092-1122 | after a verification the request has a stop reason exactly if its outputs meet a stop condition, and no shorter prefix of them does |
| `Determinism.WhyItStopped` | python/sglang/srt/managers/schedule_batch.py:1092-1122 | in every run the reason is length exactly if the limit is reached, whatever the last token is, a matched token exactly if it is not and the last token ends the request, and a stop string only otherwise |
| `Determinism.StreamOutputOrderly` | python/sglang/srt/managers/scheduler_output_processor_mixin.py:1043-1150 | streaming keeps the invariant: the token ids sent are a prefix of the verified outputs, and the tokens handed to the detokenizer are verified ones, in order and without repetition |
| `Determinism.RunSafe` | python/sglang/srt/managers/scheduler_output_processor_mixin.py:458-617 | the invariant (canonical commits, right stop reason, only verified tokens sent as ids and as text) holds after every sequence of iterations with arbitrary drafts; with retractions too if a later prefill agrees with the verifier |
| `Determinism.RunOrderly` | python/sglang/srt/managers/scheduler_output_processor_mixin.py:458-617 | with any retractions and any prefill, the stop reason is right, no shorter prefix of the outputs stops, and only verified tokens have been sent |
| `DvrOutcomes.RunBounded` | python/sglang/srt/llm42/llm42_worker.py:420-535 | without retractions no run ends in the batch-shape error, fewer than a window of tokens is ever left unverified, and every decoded token is in the outputs or counted as rolled back |
| `DvrOutcomes.EveryRunFinishes` | python/sglang/srt/llm42/llm42_worker.py:420-535 | every run of at least window times max-new-tokens iterations has finished: rollbacks cannot starve a request |
| `DvrOutcomes.FinishedAtFirstStop` | python/sglang/srt/managers/schedule_batch.py:1027-1122 | a finished, verified request has stopped at the first canonical prefix that meets a stop condition |
| `DvrOutcomes.OutputsAreDeterministic` | README.md:28-38 | any two complete runs of a request, with different drafts, batching, padding and flushing, end with the same outputs and log-probabilities |
| `DvrAnswers.StreamedIsCanonical` | python/sglang/srt/managers/scheduler_output_processor_mixin.py:1043-1150 | at every moment of every run without retractions the token ids sent are a prefix of the canonical generation, and the text consists of canonical tokens in order |
| `DvrAnswers.AnswerOrCut` | python/sglang/srt/managers/schedule_batch.py:836-841 | an answered request has been sent the token ids of the canonical answer, cut at the recorded finish length; with retractions too if resumed requests go on canonically |
| `DvrAnswers.TokenIdsAreDeterministicIff` | python/sglang/srt/llm42/llm42_info.py:766-790 | for every stream setting, the token ids delivered are the canonical answer in all runs if and only if it is not the case that the canonical generation ends on a stop string after more than two tokens and the request has an end token; with retractions the same if resumed requests go on canonically |
| `DvrAnswers.CutRun` | python/sglang/srt/managers/schedule_batch.py:1027-1074 | for every stream setting the run that shows it: a drafted end token is withdrawn, and the answer is cut after two tokens |
| `DvrAnswers.SomeRequestIsCut` | python/sglang/srt/managers/schedule_batch.py:1027-1074 | a verifier that counts upwards, an end token 9 and a stop string after three tokens make such a request |
| `DvrText.TextIsDeterministicIff` | python/sglang/srt/managers/schedule_batch.py:951-982 | for every stream setting, the tokens handed to the detokenizer are the canonical answer in all runs if and only if the request has no end token, or its token ids cannot be cut and it is not streamed again, at its interval, between the third token and its stop; with retractions the same if resumed requests go on canonically |
| `DvrText.LosingRun` | python/sglang/srt/managers/scheduler_output_processor_mixin.py:1070-1144 | for every stream setting that allows it the run that shows it: a drafted end token is withdrawn, and the text delivered in the end is shorter than the answer |
| `DvrText.SomeRequestLosesText` | python/sglang/srt/managers/scheduler_output_processor_mixin.py:1070-1144 | a request that is streamed after every token and stops at its length limit of four tokens can lose text but no token ids, and no text if it is not streamed |
| `DvrText.LogprobsArriveIff` | python/sglang/srt/llm42/llm42_info.py:800-803 | for every stream setting all log-probabilities of the answer are sent in all runs if and only if the request stops at its first token |
| `DvrRetraction.CommitsSurviveRetractionIff` | python/sglang/srt/managers/schedule_batch.py:1124-1153 | all runs, with any number of retractions, commit and send canonical tokens only if and only if, for every state in which a request can be retracted and still reach a verification, the verifier goes on from the entries of the resuming prefill with the canonical tokens up to the stop |
| `DvrRetraction.AnsweredIsCanonical` | python/sglang/srt/managers/schedule_batch.py:1124-1153 | under that condition every run that ends finished and verified holds the canonical generation up to its first stop |
| `DvrRetraction.EqualEntriesAgree` | python/sglang/srt/model_executor/model_runner.py:2489-2502 | a resuming prefill that computes the verifier's entries meets the condition |
| `DvrRetraction.BatchInvariantPrefillAgrees` | python/sglang/srt/model_executor/model_runner.py:2489-2502 | a batch-invariant prefill, which replays prompt and outputs with the verifier, agrees with it on all canonical prefixes |
| `DvrRetraction.RetractionChangesCommits` | python/sglang/srt/managers/schedule_batch.py:1124-1153 | a request whose prefill rounds differently commits a token that is not canonical after one retraction |
| `DvrFailures.CrashesIff` | python/sglang/srt/llm42/llm42_info.py:655-664 | a run from the prefill ends in the batch-shape error if and only if somewhere in it a request with at least a window of tokens less one unverified is retracted, resumed unfinished, and decoded next |
| `DvrFailures.CanCrashIff` | python/sglang/srt/managers/scheduler_output_processor_mixin.py:164-191 | some run of a request ends in that error if and only if some window of further tokens does not stop it |
| `DvrFailures.CrashingRun` | python/sglang/srt/managers/scheduler_output_processor_mixin.py:164-191 | the run from the prefill that fails: all but one token of a window are drafted, the request is retracted and resumed, and then decoded once |
| `DvrFailures.UnansweredIff` | python/sglang/srt/managers/scheduler_output_processor_mixin.py:164-191 | a run leaves its request finished but undelivered if and only if a resuming prefill finished it |
| `DvrFailures.CanBeUnansweredIff` | python/sglang/srt/managers/scheduler_output_processor_mixin.py:164-191 | some run of a request ends so if and only if the isolated prefill alone does not finish it |
| `VerificationBatch.ForwardPassIsRowwise` | python/sglang/srt/llm42/llm42_info.py:332-381 | one forward pass over the flattened batch gives each row what a pass over that row alone gives |
| `VerificationBatch.PaddingIsInert` | python/sglang/srt/llm42/llm42_info.py:137-160 | padding behind a window does not change the answers inside it |
| `BatchLayout.InputsFit` | python/sglang/srt/llm42/llm42_info.py:332-381 | the tokens rebuilt for a window fill its padded length exactly unless the window is overfull, and then they exceed it |
| `BatchLayout.BatchFitsIff` | python/sglang/srt/llm42/llm42_info.py:442-523 | the counts of input tokens and cache locations agree exactly if no window in a forced batch is overfull |
| `BatchLayout.SparesSuffice` | python/sglang/srt/llm42/llm42_info.py:64-76 | the spare slots counted for a batch are enough for every window of it |
| `BatchLayout.PoolSuffices` | python/sglang/srt/llm42/llm42_worker.py:137-163 | the pool set aside for a batch of that many windows holds all the spare slots counted |
| `BatchLayout.FixedShape` | python/sglang/srt/llm42/llm42_info.py:103-185 | if no window is overfull, every request contributes exactly one window of tokens |
| `BatchLayout.LocsAreDistinct` | python/sglang/srt/llm42/llm42_info.py:442-546 | no two tokens of a batch, dummy requests included, are written to the same place |
| `KvMemory.ReachableTableIsBacked` | python/sglang/srt/llm42/llm42_worker.py:73-163 | in every slot table that the slot accounting reaches, different places (positions of requests, padding, dummies) have different slots |
| `KvMemory.LiveIsMapped` | python/sglang/srt/managers/schedule_batch.py:1985-2042 | in such a table a live request has a slot for every position but that of its last token |
| `KvMemory.WholeBatchIsNamed` | python/sglang/srt/llm42/llm42_info.py:442-546 | every token of a batch, padding and dummies included, has a slot to write to |
| `KvMemory.BatchOverwritesDrafts` | python/sglang/srt/llm42/llm42_info.py:484-525 | after a pass has written all its entries to the slots of its places, what attention reads through the slot table of a request is its verified part as it was, followed by the entries computed for its window |
| `KvMemory.OthersKeepTheirs` | python/sglang/srt/llm42/llm42_info.py:484-546 | requests outside the batch read the same entries as before through their slots, whatever padding and dummies wrote |
| `LLM42Worker.CompareCommits` | python/sglang/srt/llm42/llm42_info.py:753-790 | truncating the outputs and log-probabilities and appending the verifier token yields the commit of the specification |
| `LLM42Worker.Req.Compare` | python/sglang/srt/llm42/llm42_info.py:753-790 | the in-place update of outputs, log-probabilities and finish reason for each position of the first mismatch |
| `LLM42Worker.LLM42Info.FromRequests` | python/sglang/srt/llm42/llm42_info.py:103-185 | the lists of a batch describe its windows: drafts with padding, lengths, masks and spare slots, in request order |
| `LLM42Worker.LLM42Info.AppendDummyEntries` | python/sglang/srt/llm42/llm42_info.py:79-100 | dummy requests add masked windows and leave the real ones alone |
| `LLM42Worker.LLM42Info.PrepareVerifyBatch` | python/sglang/srt/llm42/llm42_info.py:282-666 | the flattened tokens and cache locations of all windows, or an error exactly if their numbers differ |
| `LLM42Worker.LLM42Info.CacheLocations` | python/sglang/srt/llm42/llm42_info.py:442-523 | the cache locations of all windows: the slots that decoding wrote to, then spare slots sliced from the reserved list, which is never cut short |
| `LLM42Worker.PaddingCacheLocs` | python/sglang/srt/llm42/llm42_worker.py:198-219 | the reserved list of the wanted length, or an error exactly if the pool is smaller |
| `VerificationRun.BatchAnswers` | python/sglang/srt/llm42/llm42_worker.py:577-678 | each request in a padded, dummy-filled batch gets the answers it would get alone |
| `VerificationRun.BuildBatch` | python/sglang/srt/llm42/llm42_worker.py:602-655 | tokens and cache locations of the whole batch, dummies included; fails exactly if some window is overfull, never for want of spare slots |
| `VerificationRun.KvPool.Store` | python/sglang/srt/llm42/llm42_worker.py:657-660 | the memory after every token of the batch has written its entry |
| `VerificationRun.MemoryAfter` | python/sglang/srt/llm42/llm42_info.py:484-546 | after the pass every request of the batch finds its own window overwritten with the verifier's entries, and no other request finds anything changed |
| `VerificationRun.StoredAndReleased` | python/sglang/srt/managers/scheduler_output_processor_mixin.py:561-617 | of the overwritten entries, those before the rolled-back ones are exactly the committed cache |
| `VerificationRun.VerifyAndCompare` | python/sglang/srt/llm42/llm42_info.py:691-806 | every request of the batch ends in its own verified state, and the number of rolled-back tokens is reported for each |
| `VerificationRun.RunVerification` | python/sglang/srt/llm42/llm42_worker.py:577-724 | a batch verification succeeds exactly if no window is overfull; then each request is as if verified alone, its entries in memory included, otherwise none has changed; other requests keep their entries either way |
| `GroupedVerification.Classify` | python/sglang/srt/llm42/llm42_worker.py:443-490 | requests with unverified tokens are split into ready and not ready ones, in order |
| `GroupedVerification.NextBatch` | python/sglang/srt/llm42/llm42_worker.py:494-512 | a batch takes ready requests first, fills up with others, and is short only when nothing is left |
| `GroupedVerification.ChosenWhenDue` | python/sglang/srt/llm42/llm42_worker.py:443-490 | a request with unverified tokens that has finished, or has a window of them, is verified; while there is none nobody is, and whenever somebody is, so is one of those |
| `GroupedVerification.FillersFill` | python/sglang/srt/llm42/llm42_worker.py:494-512 | the others that are taken along make the last batch full unless there are too few of them, and make up no batch of their own |
| `GroupedVerification.CheckAndVerify` | python/sglang/srt/llm42/llm42_worker.py:420-535 | exactly the ready requests and as many others as fit in their last batch are verified, each once and as if alone, and all that lost tokens are reported; nothing happens while no request has finished or has a window of tokens to verify; it fails exactly if some window is overfull, and then the batches before the failing one stay verified |
| `GroupedVerification.RollbackIsListed` | python/sglang/srt/llm42/llm42_worker.py:679-692 | the report lists exactly the requests that lost tokens, each with their number |
| `SchedulerRuns.ObjectsFollow` | python/sglang/srt/llm42/llm42_worker.py:420-535 | after a check the request objects hold what the verification step of the specification gives for exactly the chosen requests |
| `SchedulerRuns.PickedNeedsReady` | python/sglang/srt/llm42/llm42_worker.py:443-490 | in an iteration a request is verified only together with one of the batch that is ready by the specification of a single request |
| `SchedulerRuns.FinishedIsLeftAlone` | python/sglang/srt/llm42/llm42_worker.py:443-470 | no step changes a finished request or verifies it again |
| `SchedulerRuns.EachIsARun` | python/sglang/srt/managers/scheduler_output_processor_mixin.py:458-617 | over any sequence of arrivals, decode iterations on any batches of running requests, and resumptions of retracted ones, each request goes through a run of decode-verify-rollback in which its neighbours only decide when it is pulled in |
| `SchedulerRuns.ServerEndsIff` | python/sglang/srt/llm42/llm42_info.py:655-664 | an iteration ends the server for everybody if and only if the run of some request of the batch fails with it |
| `SchedulerRuns.NeighboursDoNotMatter` | README.md:28-38 | a completed request holds the same tokens and log-probabilities whichever requests it is served with, whenever they arrive and however large the verification batches are; with retractions the same tokens if resumed requests go on canonically |
| `SchedulerRuns.EnoughRoundsComplete` | python/sglang/srt/managers/scheduler_output_processor_mixin.py:458-617 | a request that is never retracted is completed once it has been in window times max-new-tokens batches, whatever else is served |
| `KvSlots.RollbackConserves` | python/sglang/srt/managers/scheduler_output_processor_mixin.py:561-617 | freeing the slots of rolled-back positions, without slot 0, and setting the sequence length back loses and duplicates no slot and keeps all counters in step |
| `KvSlots.ReleaseConserves` | python/sglang/srt/mem_cache/chunk_cache.py:64-81 | releasing a request gives back the slots it still owns, without slot 0 |
| `KvSlots.DecodeConserves` | python/sglang/srt/mem_cache/common.py:423-462 | taking a slot for a decode moves it from the free list to the position that the sequence length of the batch names |
| `KvSlots.RunConserves` | python/sglang/srt/managers/schedule_batch.py:1877-2042 | over any sequence of admissions, decodes, rollbacks, retractions and releases every slot is counted as often as at the start, and slot 0 not more often |
| `KvSlots.PositionKeepsItsSlot` | python/sglang/srt/managers/scheduler_output_processor_mixin.py:561-617 | over any run a position keeps its slot for as long as it is in use: a rollback gives up the last positions only |
| `KvSlots.NoSlotIsShared` | python/sglang/srt/llm42/llm42_worker.py:38-263 | in every reachable pool no slot is owned twice, free and owned, or reserved for verification and owned |
| `PagedSlots.PagesStayApartIff` | python/sglang/srt/mem_cache/allocator.py:375-520 | over any sequence of admissions, decodes, rollbacks and releases with pages, no page is ever in two places if and only if every rollback starts at a page boundary |
| `PagedSlots.AdmittedOntoVerified` | python/sglang/srt/mem_cache/allocator.py:502-520 | after a rollback off a page boundary a request that takes the freed pages gets the slot of a verified entry that is still in use |
| `PagedSlots.SharingRun` | python/sglang/srt/mem_cache/allocator.py:502-520 | the run that shows it, with pages of two slots |
| `SpanLayout.BisectStart` | scripts/convert_otel_2_perfetto.py:58-60 | the bisection returns the first interval that does not start before the given time |
| `SpanLayout.CheckOverlapIsScan` | scripts/convert_otel_2_perfetto.py:58-70 | on a sorted, disjoint line of positive intervals the two-neighbour check is true exactly if a scan of all of them finds an overlap |
| `SpanLayout.InsertKeepsDisjointIff` | scripts/convert_otel_2_perfetto.py:72-73 | inserting keeps a line disjoint exactly if nothing on it overlaps |
| `SpanLayout.LayoutAccounted` | scripts/convert_otel_2_perfetto.py:230-254 | in every run each span is on the line it was given, each line holds exactly its spans, sorted, and no line is empty |
| `SpanLayout.LineHoldsItsSpans` | scripts/convert_otel_2_perfetto.py:230-254 | each line holds every span as often as it was placed there, and no other |
| `SpanLayoutTheorems.PlaceDisjointIff` | scripts/convert_otel_2_perfetto.py:95-120 | placing a span keeps all lines disjoint exactly if it did not take the unchecked shortcut into an overlap |
| `SpanLayoutTheorems.LayoutDisjointIff` | scripts/convert_otel_2_perfetto.py:95-120 | all lines of a run are disjoint if and only if no zero-length span took the shortcut into an overlap |
| `SpanLayoutTheorems.PositiveSpansNeverOverlap` | scripts/convert_otel_2_perfetto.py:95-120 | with positive spans every run keeps every line disjoint |
| `SpanLayoutTheorems.ChecksAreScans` | scripts/convert_otel_2_perfetto.py:58-73 | in every run of positive spans each check that is made equals a full scan |
| `SpanLayoutTheorems.RoomKeepsItsLine` | scripts/convert_otel_2_perfetto.py:95-120 | in every run of positive spans a room stays on the line of its previous span exactly if no earlier span there overlaps the new one; otherwise, and for its first span, it gets the first line where none does, a new one if there is none |
| `SpanLayoutTheorems.PointStays` | scripts/convert_otel_2_perfetto.py:96-99 | a span without length stays on the line of its room, whatever is there |
| `TraceVisits.TidsKeepLines` | scripts/convert_otel_2_perfetto.py:95-120 | the same of the line numbers of a trace, in terms of its rooms and spans alone |
| `SpanLayoutTheorems.UncheckedSpanHidesOverlap` | scripts/convert_otel_2_perfetto.py:96-102 | the run (0,10), (5,5), (7,8) puts overlapping spans on one line |
| `SpanLayoutTheorems.LinesBoundedByNeighbours` | scripts/convert_otel_2_perfetto.py:95-120 | for any order of positive spans the number of lines is at most one plus the largest number of other spans that one span overlaps |
| `SpanLayoutTheorems.LineCountIsOptimal` | scripts/convert_otel_2_perfetto.py:230-254 | in start order the number of lines equals the largest number of spans open at one instant, and no overlap-free assignment uses fewer |
| `TraceLayout.SpanLayoutContainer.CheckOverlap` | scripts/convert_otel_2_perfetto.py:58-70 | the method on the stored intervals computes the two-neighbour check |
| `TraceLayout.LineGraph.FindLine` | scripts/convert_otel_2_perfetto.py:95-120 | the line chosen from the container objects and the room record is the one that the history of the process determines: on lines of positive spans without overlaps, the line of the room if nothing on it overlaps the span, else the first line where nothing does |
| `TraceLayout.LineGraph.InsertAt` | scripts/convert_otel_2_perfetto.py:72-73 | the container of one line has one more span in order, all other containers keep theirs, and no container serves two lines |
| `TraceLayout.PlaceSpan` | scripts/convert_otel_2_perfetto.py:95-120 | one more span in its container, the room record and the slot records; slot records stay numbered from one without gaps |
| `TraceLayout.LayoutTrace` | scripts/convert_otel_2_perfetto.py:230-254 | over all rooms each process is laid out as if it were alone; where its spans are positive, a room stays on its line exactly if no earlier span there overlaps the new one and else gets the first line where none does; each process has one slot record for each line, numbered 1 to n |
| `TraceOrder.SortIsStable` | scripts/convert_otel_2_perfetto.py:230-239 | sorting puts the keys in order and keeps the order of equal ones, so that nothing is lost or repeated |
| `TraceOrder.GenerateLayout` | scripts/convert_otel_2_perfetto.py:230-254 | the trace is laid out with each room sorted by start and the rooms by first start; it fails exactly if some room has no spans |
| `TraceOrder.ArrangedInOrder` | scripts/convert_otel_2_perfetto.py:230-239 | the rooms come in the order of their first spans, and the spans of each room in the order of their starts |
| `TraceOrder.OneRoomIsOptimal` | scripts/convert_otel_2_perfetto.py:230-254 | a process with positive spans in one room only gets as many lines as spans are ever open at one instant, and no overlap-free assignment uses fewer |
| `SpanForest.BuildTree` | scripts/convert_otel_2_perfetto.py:158-184 | the roots and the child list of every span, in order: each span is a root, in one child list, or dropped for an unknown parent |
| `SpanForest.KidsOnce` | scripts/convert_otel_2_perfetto.py:187-227 | the children of distinct spans, collected, contain each span with a parent among them once and no other |
| `SpanForest.RoomInTreeOrder` | scripts/convert_otel_2_perfetto.py:187-227 | the spans of a room are collected request by request, then thread by thread, then in the order of the trace |
| `SpanForest.RoomSpans` | scripts/convert_otel_2_perfetto.py:187-227 | the nested loops collect the children of the children of the children of a root |
| `SpanForest.Convert` | scripts/convert_otel_2_perfetto.py:319-331 | the conversion fails exactly if some root has no span to show; otherwise it shows every span whose great-grandparent is a root once and no other, cycles or not |
| `MultiTurnPlaces.EveryClientIsSomewhere` | benchmark/hicache/bench_multiturn.py:222-242 | in every interleaving each client is in exactly one of ready queue, flight, return, response queue, barrier list, done or lost |
| `MultiTurnRounds.HandledStocked` | benchmark/hicache/bench_multiturn.py:211-221 | taking a follow-up question never finds the pool empty |
| `MultiTurnRounds.HandledPhased` | benchmark/hicache/bench_multiturn.py:346-364 | with the barrier on, handling a response stays in the round or, with the last one, moves everybody to the next |
| `MultiTurnTheorems.RunGood` | benchmark/hicache/bench_multiturn.py:267-371 | all invariants hold in every reachable state, with and without failed requests |
| `MultiTurnTheorems.RoundBarrier` | benchmark/hicache/bench_multiturn.py:346-364 | clients are at most one round apart, and a request is ready or in flight only when the responses of all earlier rounds of all clients have been handled |
| `MultiTurnTheorems.BoundedLoad` | benchmark/hicache/bench_multiturn.py:277-302 | the requests that are out never exceed the allowed number |
| `MultiTurnTheorems.OutstandingPromptIsFixed` | benchmark/hicache/bench_multiturn.py:344-365 | no step changes the token list of a request that is outstanding, although it is the history list of its client |
| `MultiTurnTheorems.EveryPromptIsTheConversation` | benchmark/hicache/bench_multiturn.py:320-365 | the prompt received in each round is the opening prompt followed by all answers and questions so far, and extends the previous prompt and its answer |
| `MultiTurnOrder.RequestsAreSentInOrder` | benchmark/hicache/bench_multiturn.py:150-173 | with the fifo policy requests are sent in the order in which they were lined up, with and without the barrier |
| `MultiTurnOrder.ResponsesAreHandledInOrder` | benchmark/hicache/bench_multiturn.py:309-319 | responses are handled in the order in which the server gave them |
| `MultiTurnOrder.QuestionsComeFromTheEnd` | benchmark/hicache/bench_multiturn.py:344-346 | over every run the follow-up questions asked, whoever gets them, are those that were drawn, from the last one backwards |
| `MultiTurnTheorems.RestIsCompletion` | benchmark/hicache/bench_multiturn.py:277-371 | without lost requests no reachable state is stuck before clients times rounds requests have been completed |
| `MultiTurnTheorems.RunLength` | benchmark/hicache/bench_multiturn.py:267-371 | every step is one send, end, return or handling of a request, so that the number of steps is determined by the state |
| `MultiTurnTheorems.EveryRunIsFinite` | benchmark/hicache/bench_multiturn.py:267-371 | no run takes more than four steps for each client and round, and two to stop |
| `MultiTurnLosses.SenderLeavesIff` | benchmark/hicache/bench_multiturn.py:277-302 | with losses, at rest the sender can leave its loop exactly if there were fewer losses than requests allowed in parallel and each was a failed response in the last round of its client |
| `MultiTurnLosses.EarlyLossStopsAll` | benchmark/hicache/bench_multiturn.py:346-364 | with the barrier on and a loss before the last round, at rest all clients that are not lost have finished that round and wait at the barrier |
| `MultiTurnTheorems.HandlerMissesAtMostOne` | benchmark/hicache/bench_multiturn.py:366-371 | when the handler stops on the progress count, every response has been handled except possibly the one being returned |
| `ConversationTheorems.TurnsAreSentInOrder` | benchmark/hicache/bench_serving.py:97-114 | each turn is sent once and in order, with 2k+1 messages and a length estimate made from the answers actually received |
| `ConversationTheorems.TranscriptAlternates` | benchmark/hicache/bench_serving.py:104-111 | the message list alternates between user prompts and answers, the user first |
| `ConversationTheorems.ConversationsTakeTurns` | benchmark/hicache/bench_serving.py:181-188 | conversations are pulled in the order in which they were put into the queue, at the start or after an answered turn |
| `ConversationTheorems.PutNeverWaits` | benchmark/hicache/bench_serving.py:181-185 | a conversation is never in the queue twice, and whenever one is put back there is room |
| `ConversationTheorems.RestIsCompletion` | benchmark/hicache/bench_serving.py:261-275 | without failures a run comes to rest only when all conversations are over, the queue is empty and it has been pulled from once for each turn |
| `ConversationTheorems.PullsAreServedIff` | benchmark/hicache/bench_serving.py:261-275 | with failures the puller gets all requests it waits for exactly if every request that failed was the last turn of its conversation |
| `ConversationTheorems.EveryRunIsFinite` | benchmark/hicache/bench_serving.py:458-490 | no run takes more than three steps for each turn |
| `ConversationTheorems.FlatteningKeepsPulls` | benchmark/hicache/bench_serving.py:412-419 | the number of pulls computed before shared prefixes are flattened equals the number of conversations and of turns afterwards |
| `Redirects.ResolvedUnique` | benchmark/line_retrieval/gen_data.py:56-76 | a line resolves in one way at most, and not at all if its redirects never end |
| `Redirects.RepeatIsRing` | benchmark/line_retrieval/gen_data.py:63-74 | coming to the same line twice means that the redirects never end |
| `Redirects.Follow` | benchmark/line_retrieval/gen_data.py:63-76 | following a line terminates on every redirect map; it reports a ring exactly if no plain line is ever reached, otherwise the exact path and the plain line |
| `Redirects.BuildLinks` | benchmark/line_retrieval/gen_data.py:56-76 | for every line: a ring exactly if its redirects never end, otherwise its exact path and the original value of its plain line, although values are rewritten on the way |
| `LineQueries.GroupByHops` | benchmark/line_retrieval/gen_data.py:78-83 | each group holds the lines with that number of hops in order |
| `LineQueries.AnswerableIff` | benchmark/line_retrieval/bench_sglang.py:41-52 | a line can be answered from the first lines exactly if all lines on its path are among them |
| `LineQueries.Choose` | benchmark/line_retrieval/bench_sglang.py:41-49 | the last of the eligible lines whose position is within the given share of their number, or none if there are none |
| `LineQueries.EvalModel` | benchmark/line_retrieval/bench_sglang.py:30-68 | for each source and each percentage, in that order, the question is about the last eligible line within that share, is answerable from the truncated body, cut in quarters, with the recorded answer and the wanted number of hops; the run fails exactly if some source has nothing to ask for |
| `LineQueries.Quarter` | benchmark/line_retrieval/bench_sglang.py:52-62 | the four parts, three of a quarter each, concatenate to the body |
| `LineQueries.PartsReadAsBody` | benchmark/line_retrieval/bench_sglang.py:17-28 | the prompt shows the four parts as the lines of the body; bodies of fewer than four lines are preceded by three empty lines |
| `ReleaseIndex.NewCommits` | docs/release_lookup/generate_index.py:79-92 | the commits not seen before, each once, and the grown set of seen ones |
| `ReleaseIndex.RecordChunks` | docs/release_lookup/generate_index.py:97-126 | whatever the chunk size, all new commits get the release, and pull requests get it if they had none of that line |
| `ReleaseIndex.ProcessTagLine` | docs/release_lookup/generate_index.py:75-126 | each commit and each pull request is mapped to the first release of the line that contains it, and the other line is left alone |
| `ReleaseLookup.Shorten` | docs/release_lookup/generate_index.py:165-180 | keys are shortened without loss, or the program ends exactly if two commits share a short key |
| `ReleaseLookup.FoldingIsLossless` | docs/release_lookup/generate_index.py:188-198 | what the page reads from a folded entry is the main and then the gateway release of the entry |
| `ReleaseLookup.DecimalParses` | docs/release_lookup/index.html:280-290 | the decimal text of an index parses back to it |
| `ReleaseLookup.Generate` | docs/release_lookup/generate_index.py:130-215 | the index holds the first main and the first gateway release of every released commit, by its short key, and of every pull request, unless two released commits share a short key, which ends the program |
| `ReleaseSearch.PrefixSearch` | docs/release_lookup/index.html:333-347 | the binary search finds the key that a scan of the sorted keys finds first |
| `ReleaseSearch.PerformSearch` | docs/release_lookup/index.html:360-410 | the search with the binary search for keys that are not there shows what the specification says |
| `ReleaseSearch.CommitIsFoundIff` | docs/release_lookup/index.html:374-410 | from eight or more characters of the hash of a released commit, in either case, the page shows its first releases if and only if they are not all digits; otherwise it shows those of the pull request with that number |
| `ReleaseSearch.DigitHashIsMissed` | docs/release_lookup/index.html:381-384 | a released commit whose hash is all digits is not found |
| `ReleaseSearch.SevenCharactersFindFirst` | docs/release_lookup/index.html:400-408 | from seven characters that are not all digits it shows the first releases of the released commit that begins so and whose short key comes first |
| `ReleaseSearch.HexQueryShows` | docs/release_lookup/index.html:385-408 | a hexadecimal query of 7 to 40 characters that is not a number shows the first releases of a released commit that begins with its first eight characters, and nothing if there is none |
| `ReleaseSearch.OtherQueriesShowNothing` | docs/release_lookup/index.html:374-410 | a query without a link or number that is too short, too long or not hexadecimal shows nothing |
| `ReleaseSearch.PrIsFound` | docs/release_lookup/index.html:374-384 | a number, a number sign with a number, and a link to a pull request all show the first releases of that pull request |
| `TextSplit.SplitJoin` | benchmark/reasoning_benchmark/answer_extraction.py:9-13 | splitting at a separator without overlaps undoes joining |
| `Fractions.FixFracsLoop` | benchmark/reasoning_benchmark/answer_extraction.py:8-37 | the loop, with its early return, computes the function that the rows below are about |
| `Fractions.CommandsAreRepaired` | benchmark/reasoning_benchmark/answer_extraction.py:8-37 | in a text with any number of fraction commands each bare argument gets its braces and nothing else changes; if some command has less than two characters behind it, nothing changes at all |
| `Fractions.EveryTextIsRead` | benchmark/reasoning_benchmark/answer_extraction.py:8-12 | every text is such a text |
| `Fractions.OneCommand` | benchmark/reasoning_benchmark/answer_extraction.py:18-33 | the same for one command with its two arguments written out, the second in braces or not |
| `Fractions.FixFracsKeepsText` | benchmark/reasoning_benchmark/answer_extraction.py:8-37 | nothing but braces changes |
| `Fractions.FixFracsBracesIff` | benchmark/reasoning_benchmark/answer_extraction.py:8-37 | every fraction command is followed by a brace exactly if none is followed by fewer than two characters; otherwise the input is returned |
| `Fractions.FixFracsIdempotent` | benchmark/reasoning_benchmark/answer_extraction.py:8-37 | fixing twice is fixing once, on all strings |
| `BoxedAnswers.ExtractBoxedAnswers` | benchmark/reasoning_benchmark/answer_extraction.py:182-197 | each piece is cut at its first unmatched closing brace, pieces without one are skipped |
| `BoxedAnswers.BoxedIff` | benchmark/reasoning_benchmark/answer_extraction.py:182-197 | a box gives back its content exactly if that is balanced and no percent sign follows the box |
| `BoxedAnswers.BoxesRoundTrip` | benchmark/reasoning_benchmark/answer_extraction.py:182-197 | from a text with any number of boxes exactly their contents are extracted, in order; a following percent sign keeps the closing brace |
| `WheelIndex.IndexIsLatest` | scripts/update_nightly_whl_index.py:77-121 | after any sequence of runs each wheel name is listed once, with the link of the latest run that had it |
| `WheelIndex.RepeatedRun` | scripts/update_nightly_whl_index.py:108-121 | repeating a run changes nothing, not even the order |
| `WheelPage.LinkName` | scripts/update_nightly_whl_index.py:111-121 | the name found in a link is the name of its wheel |
| `WheelPage.PageReadsBack` | scripts/update_nightly_whl_index.py:77-86 | the links read from a page are the links written to it |
| `WheelPage.UniqueLinks` | scripts/update_nightly_whl_index.py:111-121 | the loop over the link texts keeps the first link of each wheel |
| `WheelPage.UpdateWheelIndex` | scripts/update_nightly_whl_index.py:77-150 | one run turns the page of the old index into the page of the updated one, and leaves it alone if there are no wheels; a line with a given address and name stands on it exactly if that wheel is the first of its name among the new and then the old ones |
| `WheelPage.UpdateAll` | scripts/update_nightly_whl_index.py:77-150 | after any sequence of runs the page has its two header lines, and a line with a given address and name exactly if the latest run that had a wheel of that name had it with that address; there is a page once a run had a wheel |
| `MetricsCache.RefreshIsExclusive` | docs/performance_dashboard/server.py:219-235 | in every interleaving of single statements at most one thread refreshes, the flag is up exactly then, failing fetches included, and critical sections exclude each other |
| `MetricsCache.ReadersSeeOneFetch` | docs/performance_dashboard/server.py:335-345 | data and time seen by a reader come from the same fetch, the latest one finished when it released the lock |
| `MetricsCache.SomeThreadMoves` | docs/performance_dashboard/server.py:219-235 | as long as some thread has not ended, some thread can take a step |
| `ChatFilter.Process` | benchmark/hicache/data_processing.py:56-84 | the loop computes what is kept of a conversation |
| `ChatFilter.ProcessedInOrder` | benchmark/hicache/data_processing.py:56-84 | exactly the turns inside all bounds are kept, in their order, each once, with its lengths |
| `ChatFilter.SurvivorsInOrder` | benchmark/hicache/data_processing.py:52-91 | exactly the conversations with a turn inside all bounds survive, in their order, each once |
| `ChatFilter.FilterChat` | benchmark/hicache/data_processing.py:52-91 | the k-th result is survivor k modulo their number |
| `ChatFilter.EndsIff` | benchmark/hicache/data_processing.py:52-60 | the passes end exactly if nothing is requested or some conversation survives |

## Left out

- The verifier kernel itself, which is a function of the cache entries and the token of one position, which is what a fixed-shape schedule is meant to give; that GPU kernels behave so is assumed.
- Sampling, since drafts are arbitrary, and the verifier picks its token deterministically.
- The variable-size verification mode, which verifies ready requests only; the overlap scheduler, speculative decoding, pages larger than one except in `PagedSlots`, and radix caching.
- Grammar-constrained requests, vocabulary checks, aborts, injected mismatches, and top log-probabilities.
- The detokenizer turns the tokens handed to it into text; how is not modelled.
- Determinism.RunSafe: with retractions it asks that a later prefill agrees with the verifier on canonical prefixes, because otherwise it is false (`DvrRetraction.RetractionChangesCommits`); the exact condition for commits is `DvrRetraction.CommitsSurviveRetractionIff`.
- PagedSlots.PagesStayApartIff: the pages of a batch are taken one request after another, and the order of freed pages in the free list is arbitrary.
- SchedulerRuns.EachIsARun: which requests a batch holds and when one is retracted is arbitrary; the scheduler's reasons are not modelled.
- MultiTurnTheorems.RestIsCompletion: progress is proved without lost requests, because a lost request stops the workload (`MultiTurnLosses.SenderLeavesIff`); the numbers of rounds and of parallel requests have to be positive.
- The steps of the multi-turn threads are whole loop iterations: between the statements of one iteration the other thread only adds to queues and counters.
- Waiting times, arrival rates and performance metrics of both workload protocols; the order in which the semaphore admits tasks is arbitrary.
- ConversationTheorems.RestIsCompletion: conversations have at least one turn, as the loaders produce them.
- Timestamps, events, links and metadata names of converted spans.
- LineQueries.EvalModel: percentages are real numbers, and lines are values or references instead of sentences.
- The few-shot examples of the line generator, and its random choices.
- ReleaseIndex.ProcessTagLine: commits come with their pull request; the parsing of git output and of messages is not modelled.
- ReleaseSearch.CommitIsFoundIff: queries come without surrounding blanks, and the keys sorted.
- WheelPage.UpdateWheelIndex: file names and addresses contain no markup and no line breaks, and an existing page was written by this program. The root index of packages is not modelled.
- ChatFilter.FilterChat: requires that the passes end, because otherwise the program does not return (`ChatFilter.EndsIff`).
- MetricsCache.ReadersSeeOneFetch: the test whether the cache is fresh is left out, because it only decides whether a refresh is started.
- The rest of `strip_string` and the answer comparison, which rest on regular expressions and symbolic algebra.
