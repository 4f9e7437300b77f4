# Folium: verified model

This project models five parts of the Folium document server and proves what they promise:

1. **Token-safe chunking** (`Tokens`, `Chunking`, `ChunkProvenance`): pages become blocks, blocks become overlapping windows, windows become
   chunks. The tokenizer-free branch is modelled exactly; a text is the sequence of its words.
2. **The embedding pipeline** (`EmbeddingStore`, `EmbeddingErrors`, `EmbeddingIsolation`, `EmbeddingRefusals`, `EmbeddingLimits`,
   `EmbeddingFate`, `EmbeddingRun`): chunk rows, recursive bisection of refused batches, in-place splitting of oversized chunks, the check
   of the input limit before sending, committed batches and continuation jobs. The provider is an arbitrary oracle.
   `EmbeddingJob` is the imperative form; the functions in `EmbeddingStore`, `EmbeddingIsolation` and `EmbeddingLimits`
   specify it.
3. **Jobs and leases** (`Jobs`, `Leases`, `Workers`): the queue operations as methods on a table of rows, and all
   interleavings of them as runs of a state machine whose steps are those same row updates. Time is an integer.
4. **The library** (`Forest`, `Library`, `Folders`, `FolderServices`, `FolderDeletion`, `BlobStore`, `Documents`, `Purge`,
   `LibraryRuns`): folder rows with parent links, documents in folders, and blobs shared by documents of several owners. A
   `Session` holds the tables; each service is a method on it, and `LibraryRuns` runs any sequence of them.
5. **Retrieval arithmetic** (`Fusion`, `HybridSearch`, `Context`, `Windows`): reciprocal rank fusion, the budget of the
   chat context, and text windows found by binary search. Scores are exact reals.

`Sequences` and `Wrappers` hold shared definitions.

## Where the code does not keep a promise

Each of these is stated as a lemma or an exact condition; the model follows the code.

- Isolation depth 5 is enough exactly for batches of at most 32 chunks. A provider row may configure larger batches, and
  then a clean chunk next to a poison one can fail (`EmbeddingIsolation.ExactIffAtMost32`).
- `fail_job` ignores a cancellation. A cancelled job stays cancelled over a run exactly when no executor of it fails, and
  over all runs to come exactly when it has no executor left (`Leases.CancelledUnlessItFails`, `Leases.CancelIsFinal`).
- A worker that starts requeues jobs that another worker is running. Lease safety survives a restart exactly when every
  running job of a live executor sits on a trashed document, and a stale sweep exactly when no live executor's lock is
  stale (`Leases.RestartKeepsLeases`, `Leases.SweepKeepsLeases`).
- A batch reloaded after a split is not checked again for the input limit. Every batch sent is within the limit exactly
  when the limit is at least 32 tokens (`EmbeddingLimits.WithinIffAtLeast32`); nothing in a provider row prevents a
  smaller one.
- An ingest that fails after purging a trashed duplicate rolls the row back but not the blob; the store stays consistent
  exactly when another document shares the blob (`Documents.IngestBytes`).
- Restoring a folder also restores what was trashed below it before, and never the inbox flag
  (`FolderDeletion.RestoreUndoesTrash`).
- An empty folder is deleted before the strategy or the confirmation is looked at (`FolderDeletion.DeleteFolder`).
- Creating a folder beside a trashed one of the same name passes the check and meets the unique constraint
  (`FolderServices.CreateUnder`, error `Integrity`).
- The docstring of hybrid search speaks of merging keyword and semantic results, but their keys never coincide
  (`HybridSearch.NeverFused`).
- A negative history limit, which nothing prevents in a custom profile, lets a request exceed the context window as soon
  as a passage may be sent and fits the budget together with its label (`Context.BoundIsExact`, `Context.OverdrawnCall`).

## Reading the model

- A service that raises is a `Result` with an error. The request that called it rolls the tables back, so on an error the
  tables are as before; blobs are files and are not rolled back.
- Each committed service call is one atomic step. Query results without a defined order are taken in any order.
- `db.Ok()` says that the folders form a forest and that every document lies in an existing folder of its owner;
  `Documents.Consistent` adds the blob store. `LibraryRuns.RunAll` runs any sequence of operations on folders and
  documents: they keep both, up to the first ingest that loses a blob.
- In the embedding and chunking methods a ghost argument or result names the words of the document or the windows of
  the run; it has no influence on what is computed.

## Model

| member | source | states |
|---|---|---|
| Tokens.EstimateSuperadditive | backend/src/folium/services/chunking.py:68-69 | The word-count estimate is monotone and superadditive: joining two texts never costs less than both, and can cost more. |
| Tokens.PieceFits | backend/src/folium/services/chunking.py:350-351 | A piece of the size the splitter uses always fits the bound, for every bound of at least one token. |
| Tokens.PiecesFacts | backend/src/folium/services/chunking.py:332-369 | Splitting keeps every word in its place, leaves no empty or oversized piece, and really splits exactly the texts over the bound. |
| Tokens.PiecesAreFull | backend/src/folium/services/chunking.py:350-356 | All pieces but the last have the same number of words, and two words more would take them over the bound. |
| Tokens.CutByWords | backend/src/folium/services/chunking.py:352-356 | The scan by word positions yields the cut into runs of equal size. |
| Tokens.SplitTextByTokens | backend/src/folium/services/chunking.py:332-369 | The splitter as it runs, its hardening loop included, yields those pieces; the window-of-characters branch is dead. |
| Chunking.PagesBlocksFacts | backend/src/folium/services/chunking.py:107-109 | Turning pages into blocks loses no word and leaves only non-empty blocks within the bound, so the oversized-block branch of the loop is never taken. |
| Chunking.BlocksFromText | backend/src/folium/services/chunking.py:300-329 | Every block bears its page; of a heading that must be split only the first part stays a heading. |
| Chunking.SplitPageBlocks | backend/src/folium/services/chunking.py:277-297 | The blocks of a page are those of its lines with words, in order. |
| Chunking.TailStartMeaning | backend/src/folium/services/chunking.py:372-383 | The overlap tail is the shortest suffix that reaches the overlap, or everything. |
| Chunking.OverlapTail | backend/src/folium/services/chunking.py:372-383 | The backward walk returns that tail. |
| Chunking.WindowsOverlap | backend/src/folium/services/chunking.py:150-152 | Consecutive windows start in order, leave no gap and share at least one block: as few as reach the overlap, or the whole window when it falls short. |
| Chunking.CloseWindow | backend/src/folium/services/chunking.py:166-169 | A look that finds its reason closes the open window, and the next one opens at its overlap tail, still before the next look. |
| Chunking.GrowWindow | backend/src/folium/services/chunking.py:205-209 | A block is taken in only after all four reasons have been looked at. |
| Chunking.PassReason | backend/src/folium/services/chunking.py:171-209 | A look that does not find its reason leaves the window open. |
| Chunking.WindowsDetermined | backend/src/folium/services/chunking.py:171-229 | Blocks and limits determine the windows: any two sequences in which each window closes at the first look that asks for it, repeated closes at one position included, are equal. |
| Chunking.WindowsKeepWords | backend/src/folium/services/chunking.py:171-229 | The block stream can be read off the concatenated windows: overlap repeats words, nothing is lost or reordered. |
| Chunking.RunningSumUnderestimates | backend/src/folium/services/chunking.py:134-135 | A running sum within the bound does not bound the joined text: the numbers for which the hard guard has to split again. |
| Chunking.FinishFacts | backend/src/folium/services/chunking.py:120-231 | Every chunk of a finished run is non-empty, within the bound, counted by its own estimate and numbered 0 to n-1, and the chunk texts spell the windows one after the other, the merged remainder included. |
| Chunking.MergeFacts | backend/src/folium/services/chunking.py:211-227 | Merging a short remainder changes only the last chunk and keeps it within the bound. |
| Chunking.SplitOversizedText | backend/src/folium/services/chunking.py:234-258 | The drafts are safe, numbered from the start index, and spell the text exactly. |
| Chunking.ChunkBuilder.Flush | backend/src/folium/services/chunking.py:120-169 | A flush closes exactly the open window, for the reason looked at, and reopens at its overlap tail. |
| Chunking.ChunkBuilder.Take | backend/src/folium/services/chunking.py:171-209 | One turn of the loop makes every look in order, each of which may close a window, and takes in one block. |
| Chunking.ChunkBuilder.Close | backend/src/folium/services/chunking.py:211-229 | The end of the run yields the chunks of a complete chain of windows. |
| Chunking.ChunkPages | backend/src/folium/services/chunking.py:99-231 | The chunks are those of the one sequence of windows that the pages and limits determine; the words of all pages are a subsequence of their texts, and every chunk is safe and numbered by position. |
| ChunkProvenance.WindowInterior | backend/src/folium/services/chunking.py:171-209 | At no block inside a window, past the end of the one before, was the target reached or the maximum exceeded, nor did a heading follow enough text or start a new page. |
| ChunkProvenance.PageBreakCloses | backend/src/folium/services/chunking.py:177-178 | A heading on a new page always has a window that ends right before it. |
| ChunkProvenance.StreamAscends | backend/src/folium/services/chunking.py:107-109 | Blocks keep the page order of the document. |
| ChunkProvenance.FinishSpans | backend/src/folium/services/chunking.py:130-169 | The chunks begin on the first page and end on the last, each with its first page not after its last, and their page ranges move forward. |
| ChunkProvenance.OneChunkEach | backend/src/folium/services/chunking.py:137-169 | A window within the bound is exactly one chunk, with its text, pages and count. |
| ChunkProvenance.RemainderMerged | backend/src/folium/services/chunking.py:211-229 | The remainder adds no chunk if and only if a chunk precedes it, it is short and both together fit. |
| EmbeddingErrors.Classify | backend/src/folium/ai/retry.py:44-83 | Oversized errors are also non-retryable, transient ones are neither, and the two flags decide which branch the pipeline takes. |
| EmbeddingStore.SplitRows | backend/src/folium/services/embedding_pipeline.py:439-483 | Row by row what a split leaves: the chunk shrinks to its first part, siblings follow it, later indexes move up, all other rows stay. |
| EmbeddingStore.SplitConserves | backend/src/folium/services/embedding_pipeline.py:408-492 | A split keeps the indexes exactly 0 to n-1 without repeats and the words read in index order unchanged. |
| EmbeddingStore.NoWorkLeft | backend/src/folium/services/embedding_pipeline.py:547-562 | The drain measure is zero exactly when no chunk is open. |
| EmbeddingStore.SplitLowersWork | backend/src/folium/services/embedding_pipeline.py:408-492 | Splitting or giving up a chunk strictly lowers the sum of 8*words - 7 + max(0, 3 - attempts) over open chunks. |
| EmbeddingIsolation.CallEmbed | backend/src/folium/services/embedding_pipeline.py:391-405 | A request is repeated after every transient refusal and only then, up to three times, and the last answer counts. |
| EmbeddingIsolation.IsolateFrame | backend/src/folium/services/embedding_pipeline.py:266-388 | For every provider an isolation run touches only its own batch, apart from index shifts, and leaves none of it in flight. |
| EmbeddingIsolation.IsolateConserves | backend/src/folium/services/embedding_pipeline.py:266-388 | Whatever the provider answers, isolation conserves the layout and the words of the document. |
| EmbeddingIsolation.IsolateLowersWork | backend/src/folium/services/embedding_pipeline.py:266-388 | Whatever the provider answers, a non-empty batch strictly lowers the remaining work. |
| EmbeddingIsolation.PoisonIsolation | backend/src/folium/services/embedding_pipeline.py:295-367 | With enough depth left for the group, every clean chunk ends embedded with its own vector, no poison chunk does, the depth cut-off is not reached and at most 2n-1 groups are sent. |
| EmbeddingIsolation.LargerGroupsLoseClean | backend/src/folium/services/embedding_pipeline.py:305-306 | In every larger group ending in poison, the clean chunk beside it is not embedded: the bound of the previous row is tight at every depth. |
| EmbeddingIsolation.LargeBatchCounterexample | backend/src/folium/services/embedding_pipeline.py:305-306 | For each batch size above 32 there is a batch and a provider for which a clean chunk is not embedded. |
| EmbeddingIsolation.ExactIffAtMost32 | backend/src/folium/services/embedding_pipeline.py:266-388 | Isolation is exact for all batches of a size if and only if the size is at most 32. |
| EmbeddingRefusals.CutWhenRefused | backend/src/folium/services/embedding_pipeline.py:417-432 | A refused chunk is cut if and only if it has more than 64 tokens or more than the limit in use; its pieces have at most half its tokens, or 64, and a chunk within the limit becomes two or three. |
| EmbeddingRefusals.SplitFate | backend/src/folium/services/embedding_pipeline.py:432-483 | Such a chunk leaves only pending pieces of that size on its own pages; any other is given up for good with its text. |
| EmbeddingRefusals.SingleFate | backend/src/folium/services/embedding_pipeline.py:295-388 | The fate of a chunk sent alone by the answer: embedded, pending until its third attempt after a transient refusal or a wrong count, cut or given up when too long, given up otherwise. |
| EmbeddingRefusals.GroupFate | backend/src/folium/services/embedding_pipeline.py:305-367 | A group refused at the depth limit is held back as a whole: one attempt each after a size or transient refusal, given up after any other. |
| EmbeddingRefusals.HiccupsAreMasked | backend/src/folium/services/embedding_pipeline.py:391-405 | With no three transient refusals in a row, none ever reaches the batch. |
| EmbeddingLimits.OverLimitIsCut | backend/src/folium/services/embedding_pipeline.py:417-435 | From a limit of 32 on, a chunk over it is cut into at least two pieces, each within it and rightly counted: none is given up. |
| EmbeddingLimits.SplitOverKeepsCounted | backend/src/folium/services/embedding_pipeline.py:437-483 | The recorded token counts stay the estimates of the texts through every round of splits, whatever the limit. |
| EmbeddingLimits.ReloadStaysInside | backend/src/folium/services/embedding_pipeline.py:542-562 | The batch loaded after the splits holds only chunks of the first batch and their pieces. |
| EmbeddingLimits.SentIsWithin | backend/src/folium/services/embedding_pipeline.py:163-170 | From a limit of 32 on, every chunk of what is sent is within it, and the splits before sending close no chunk. |
| EmbeddingLimits.SmallLimitFails | backend/src/folium/services/embedding_pipeline.py:419-422 | For each limit below 32 there are two counted chunks of which the first is given up and the second is sent over the limit. |
| EmbeddingLimits.WithinIffAtLeast32 | backend/src/folium/services/embedding_pipeline.py:163-170 | Every batch sent is within the input limit, for all counted stores and all settings with that limit, if and only if the limit is at least 32. |
| EmbeddingFate.IsolateFaithful | backend/src/folium/services/embedding_pipeline.py:266-388 | Whatever the provider answers, a chunk that isolation fails has kept its text, and token counts stay right. |
| EmbeddingFate.BatchJudged | backend/src/folium/services/embedding_pipeline.py:295-367 | A batch of at most 32 chunks leaves every chunk judged rightly so far: embedded only clean texts with their own vectors, failed only poison texts. |
| EmbeddingFate.SplittingJudgesNobody | backend/src/folium/services/embedding_pipeline.py:520-544 | From a limit of 32 on, the splits before sending judge no chunk. |
| EmbeddingRun.ResolveCapabilities | backend/src/folium/services/embedding_capabilities.py:47-79 | The effective limits are positive, the recommended size is at most the maximum and the batch size at most the maximum batch; settings within those bounds are used as they are, missing ones give 8192, 512 and 16. |
| EmbeddingRun.StatusesPartition | backend/src/folium/services/embedding_pipeline.py:566-591 | Chunks total = embedded + failed + pending + in flight, over all rows. |
| EmbeddingRun.BatchEffects | backend/src/folium/services/embedding_pipeline.py:175-194 | After a committed batch no chunk is in flight, vectors sit exactly on embedded chunks, embedded chunks are untouched, the words are conserved and the embedded count grows by the reported number. |
| EmbeddingRun.SplitEffects | backend/src/folium/services/embedding_pipeline.py:534-540 | The same for a split before sending, which embeds nothing. |
| EmbeddingRun.EmbeddingJob.CallEmbedWithRetries | backend/src/folium/services/embedding_pipeline.py:391-405 | Only transient refusals are retried, at most three requests are made, and the last answer is returned. |
| EmbeddingRun.EmbeddingJob.MarkChunksFailed | backend/src/folium/services/embedding_pipeline.py:495-517 | Each chunk of the group counts one attempt and is failed when forced or at the third attempt, else left pending; the number failed is returned. |
| EmbeddingRun.EmbeddingJob.StoreVectors | backend/src/folium/services/embedding_pipeline.py:373-382 | Each chunk of the batch gets the vector at its own position and no other row changes. |
| EmbeddingRun.EmbeddingJob.SplitSingleChunk | backend/src/folium/services/embedding_pipeline.py:408-492 | The in-place split refines the split of the specification, whose outcome `EmbeddingRefusals.SplitFate` states, and reports a failure exactly when nothing could be cut. |
| EmbeddingRun.EmbeddingJob.EmbedBatchWithIsolation | backend/src/folium/services/embedding_pipeline.py:266-388 | The recursive method refines the isolation function, and its outcome counts what its batch became. |
| EmbeddingRun.EmbeddingJob.LoadPendingBatch | backend/src/folium/services/embedding_pipeline.py:547-563 | The open chunks of lowest index, as many as the batch size allows; fewer only when no other is open. |
| EmbeddingRun.EmbeddingJob.EnsureTokenSafe | backend/src/folium/services/embedding_pipeline.py:520-544 | The loop refines the splits of the specification in order. Nothing changes exactly when every chunk of the batch is within the limit by recorded and by estimated count; else the open chunks of lowest index after the splits are returned, with less work left; words and embedded chunks are conserved. |
| EmbeddingRun.EmbeddingJob.FinalizeDocument | backend/src/folium/services/embedding_pipeline.py:594-650 | The flag and status of the document in every case of the counts, chunks left pending without a continuation included; a cancelled or continued run leaves both alone. |
| EmbeddingRun.EmbeddingJob.TakeTurn | backend/src/folium/services/embedding_pipeline.py:159-196 | One turn is the load, the splits, the reload and the isolation of what is then to be sent, for any provider; it lowers the work unless nothing is open, and makes a request exactly when it reports a batch. |
| EmbeddingRun.EmbeddingJob.RunBatches | backend/src/folium/services/embedding_pipeline.py:128-198 | The loop: the states between turns, the batches among them and the reason it stopped, as the row of the whole run says. |
| EmbeddingRun.EmbeddingJob.ProcessDocument | backend/src/folium/services/embedding_pipeline.py:121-220 | The run is a sequence of such turns. A turn is taken only while the job is neither cancelled nor out of time or batches; the job is cancelled iff the query says so before the next turn, and continues iff it ran out with chunks open. Embedded and failed counts agree with the rows, and with rightly counted chunks no batch over an input limit of at least 32 is sent. |
| EmbeddingRun.EmbeddingJob.Drain | backend/src/folium/services/embedding_pipeline.py:130-205 | A chain of continuation jobs terminates with every chunk embedded or failed, for every provider behaviour. With rightly counted chunks, a limit of at least 32, batches of at most 32 and a provider that refuses exactly the requests with a poison text, every chunk that was open or split off ends embedded with the vector of its own final text iff that text is clean, and failed iff it is poison. |
| EmbeddingRun.EmbeddingJob.ResetEmbeddings | backend/src/folium/services/embedding_pipeline.py:682-697 | Every chunk is pending again without a vector; text and layout stay. |
| Jobs.FailureRequeues | backend/src/folium/services/jobs.py:178-207 | A failed job is queued again exactly when retries remain, even if it was cancelled meanwhile; then it stands five steps further back, never beyond 1000, and can be claimed once the delay is over. |
| Jobs.RefreshedLock | backend/src/folium/services/jobs.py:139-175 | A claim starts a lock and a heartbeat renews that of a running job: it is stale exactly when more than the threshold has passed since. |
| Jobs.EndedRows | backend/src/folium/services/jobs.py:148-221 | Completing and cancelling: whichever comes first decides the status, and neither leaves a claimable job. |
| Jobs.NothingClaimable | backend/src/folium/services/jobs.py:91-138 | No job is eligible iff every available job on an untrashed document is a preflight job of a preparing document other than the one a running preflight pins. |
| Jobs.ClaimKeepsOneDocument | backend/src/folium/services/jobs.py:51-89 | While a preflight job runs on a preparing document, an eligible preflight job of a preparing document belongs to the same document. |
| Jobs.JobQueue.EnqueueJob | backend/src/folium/services/jobs.py:29-48 | One queued row under a fresh id; no other row changes. |
| Jobs.JobQueue.ActivePreflightDocument | backend/src/folium/services/jobs.py:51-89 | The document that owns the preflight pipeline: among the running ones if there are any, else among the waiting ones, the first added. |
| Jobs.JobQueue.ClaimNext | backend/src/folium/services/jobs.py:91-145 | Claims an eligible job that no other eligible job precedes by priority and creation time, changing that row only, or nothing when none is eligible. |
| Jobs.JobQueue.CompleteJob | backend/src/folium/services/jobs.py:148-166 | The job is completed, unless it was cancelled while it ran and stays so; no other row changes. |
| Jobs.JobQueue.TouchJobLock | backend/src/folium/services/jobs.py:169-175 | Only a running job's lock time moves, to the present: its lock is stale again exactly when the threshold has passed. |
| Jobs.JobQueue.FailJob | backend/src/folium/services/jobs.py:178-207 | The failed row, with retry count, lowered priority and delay; an unknown id is an error. |
| Jobs.JobQueue.CancelJob | backend/src/folium/services/jobs.py:210-242 | Found only by id and, with an owner given, on a document of that owner. A completed or cancelled job stays as it is; any other, a failed one included, becomes cancelled and loses its lock. |
| Jobs.JobQueue.RequeueStaleRunning | backend/src/folium/services/jobs.py:262-277 | Afterwards no lock is stale; the jobs whose lock was stale can be claimed again at once, with nothing but status and lock changed; every other row is as before. |
| Jobs.JobQueue.Startup | backend/src/folium/workers/main.py:321-325 | Afterwards no job runs and no queued job sits on a trashed document; jobs that ran elsewhere are queued, those queued or running on a trashed document are cancelled, and every other row is as before. |
| Leases.OnlyClaimsRun | backend/src/folium/services/jobs.py:91-145 | No step but a claim makes a job run, and none changes its type or document. |
| Leases.LiveRowsStay | backend/src/folium/workers/main.py:69-112 | Through every possible step that spares the leases, the row of a live executor is running or cancelled and, if running, locked by its worker. |
| Leases.SweepKeepsLeases | backend/src/folium/services/jobs.py:262-277 | A stale sweep keeps one executor per job and held locks if and only if no live executor has a stale lock. |
| Leases.RestartKeepsLeases | backend/src/folium/workers/main.py:321-325 | A restart keeps them if and only if every running job of a live executor sits on a trashed document. |
| Leases.FreshSparesLeases | backend/src/folium/workers/main.py:69-83 | Locks refreshed within the threshold make the sweep harmless; no live executor makes the restart harmless. |
| Leases.StepLeaseSafe | backend/src/folium/workers/main.py:37-172 | A possible step keeps lease safety if and only if it is not a sweep that meets the stale lock of a live executor nor a restart that meets the running job of one. |
| Leases.StepOneDocument | backend/src/folium/services/jobs.py:51-145 | A possible step keeps the running preflight jobs of preparing documents on one document if and only if it does not return another document with a running preflight job to preparation. |
| Leases.ChangeKeepsGate | backend/src/folium/services/jobs.py:51-89 | The exact condition under which a change of a document keeps the gate. |
| Leases.StepOneBackup | backend/src/folium/services/backup.py:75-109 | Every possible step keeps at most one backup or verification active, because they are only enqueued without retries. |
| Leases.StepOneActiveBackup | backend/src/folium/services/jobs.py:178-207 | Whatever the retry limits are, a possible step keeps at most one backup active if and only if it is not the failure of a backup with retries left while another is active. |
| Leases.RunsAreSafe | backend/src/folium/workers/main.py:37-172 | Over every possible run of claims, heartbeats, cancels, sweeps, restarts, completions, failures, crashes and backups: one executor per job, held locks, one preparing document and one backup in every state if and only if each step spares leases and gate. |
| Leases.ReachableIsSafe | backend/src/folium/workers/main.py:311-332 | From a start with no executor and no running job, every careful run ends safe. |
| Leases.HeartbeatRenews | backend/src/folium/services/jobs.py:169-175 | After a heartbeat the lock of a running job is stale exactly when more than the threshold has passed. |
| Leases.ClaimLocks | backend/src/folium/services/jobs.py:139-145 | After a claim the job runs under its worker, with a lock that is stale exactly when more than the threshold has passed. |
| Leases.HeartbeatsKeepLeases | backend/src/folium/workers/main.py:69-83 | Over every run without restarts in which each live executor claimed or sent a heartbeat within the threshold before each stale sweep, no job has two executors and locks are held in every state. |
| Leases.HeartbeatsFromTheStart | backend/src/folium/workers/main.py:69-83 | The same from a start with nobody at work, with no assumption about earlier contact. |
| Leases.CompleteFinishes | backend/src/folium/workers/main.py:86-91 | The end of an executor completes its job unless it was cancelled, and leaves it without an executor. |
| Leases.CompletedIsFinal | backend/src/folium/services/jobs.py:148-166 | Over every run that stays lease safe, a completed job stays completed: it never runs again. |
| Leases.CancelledStep | backend/src/folium/services/jobs.py:178-207 | In any possible step a cancelled job stays cancelled iff its own executor does not fail; it is queued iff that executor fails and retries remain. |
| Leases.CancelledUnlessItFails | backend/src/folium/services/jobs.py:148-207 | Over every run a cancelled job stays cancelled if and only if no executor of it fails. |
| Leases.CancelIsFinal | backend/src/folium/services/jobs.py:148-221 | A cancellation holds over every run to come if and only if no executor of the job is alive. |
| Leases.LateHeartbeatBreaksLease | backend/src/folium/services/jobs.py:262-277 | A run from the start in which a refresh is late and two executors hold one job. |
| Leases.RestartBreaksLease | backend/src/folium/workers/main.py:321-325 | A run from the start in which a starting worker requeues the running job of a live one and the job gets a second executor. |
| Leases.CancelledJobRuns | backend/src/folium/services/jobs.py:188-207 | A cancelled job of a live executor is queued again by its failure. |
| Leases.RetryingBackupBreaksExclusion | backend/src/folium/services/backup.py:99-106 | Were backups allowed to retry, a cancelled one comes back beside a newer one: a run that ends with two active. |
| Leases.ReturningDocumentBreaksGate | backend/src/folium/services/jobs.py:51-145 | Whenever another document runs gated, a document that returns to preparation with a running preflight job breaks the gate. |
| Workers.Worker.PollJobs | backend/src/folium/workers/main.py:37-67 | A permit is held exactly while a job is; stale jobs are swept first; a claim takes the first eligible job, and a free permit is not left idle while one is eligible. |
| Workers.Worker.FinishJob | backend/src/folium/workers/main.py:86-170 | The executor's end completes or fails its job and returns its permit once; a preflight job that fails for good ends the preparation of its document, an optional one only when no other preflight job of the document is open. |
| Workers.HasActiveBackupJob | backend/src/folium/services/backup.py:75-80 | The query fails exactly when it meets two rows, which exclusion rules out. |
| Workers.RequestBackup | backend/src/folium/api/backups.py:152-192 | Refused first when the instance is not ready or the record is missing, else exactly when a job is active or the repository is unavailable; afterwards exactly one is active; the two-row failure never happens. |
| Workers.PollBackupSchedule | backend/src/folium/workers/main.py:230-255 | Looked at only when ready and thirty seconds after the last look; a due backup starts exactly when none is active and the repository is healthy, and the policy moves on exactly when it started or was skipped for an active one. |
| Forest.ForestNeverLoops | backend/src/folium/services/folders.py:320-337 | In a forest no way up meets a folder twice. |
| Forest.ChainEndsAtRoot | backend/src/folium/services/folders.py:128-142 | Every parent chain is finite and ends at the root of the folder's owner. |
| Forest.SubtreeIsOrdinary | backend/src/folium/services/folders.py:413-422 | Below an ordinary folder everything is ordinary and of the same owner, so the owner and kind filters of the bulk updates drop nothing. |
| Forest.MoveKeepsRank | backend/src/folium/services/folders.py:340-371 | Re-parenting keeps the forest if and only if the new parent is outside the folder's subtree. |
| Forest.OneWayUp | backend/src/folium/services/folders.py:320-337 | Two ways up from one folder agree as far as both go. |
| Forest.RemoveFolders | backend/src/folium/services/folders.py:612-635 | Removing a set of folders with all their children keeps the forest. |
| Folders.WouldCreateCycle | backend/src/folium/services/folders.py:320-337 | The upward walk answers yes iff the folder is met on the way up or the way up runs in a circle, on any table. |
| Folders.CycleCheckIsSubtree | backend/src/folium/services/folders.py:320-337 | On a forest that is the case exactly when the new parent is in the downward subtree. |
| Folders.DescendantIds | backend/src/folium/services/folders.py:483-519 | The level-by-level query returns exactly the subtree, or nothing for another owner. |
| FolderServices.EnsureSystemFolders | backend/src/folium/services/folders.py:26-68 | Adds only the missing system folders of the owner and leaves all three present; fails exactly when a name in the root stands in the way. |
| FolderServices.GetSystemFolder | backend/src/folium/services/folders.py:83-125 | The one folder of that kind, created with its siblings when missing. |
| FolderServices.FirstFolders | backend/src/folium/services/folders.py:26-68 | In a root that was just made with its system folders, a name is in use exactly when it is that of the inbox or the trash, so nothing else can refuse the first folder. |
| FolderServices.CreatesWhenSound | backend/src/folium/services/folders.py:169-212 | A creation is accepted if and only if the table with the new row is a forest with distinct names, one owner per chain and nothing in the trash folder. |
| FolderServices.CreateUnder | backend/src/folium/services/folders.py:169-212 | One new row, or one of four refusals; a trashed sibling of that name is not seen by the check and hits the unique constraint. |
| FolderServices.CreateFolder | backend/src/folium/services/folders.py:169-212 | Without a parent the folder goes under the owner's root, which is made first when missing; then only an empty name or that of a new system folder is refused. |
| FolderServices.EnsureChild | backend/src/folium/services/folders.py:231-269 | Returns the active child, revives a trashed ordinary one, or creates it; the conflict caught from creation never arises. |
| FolderServices.EnsurePath | backend/src/folium/services/folders.py:272-285 | Refused iff the start is missing or Trash, a name is empty, or the first name meets Trash or a trashed system folder. Else the names lead to the returned active folder, rows are only added or revived, and a complete path is returned unchanged, so asking again changes nothing. |
| FolderServices.MoveFolder | backend/src/folium/services/folders.py:340-371 | Refused exactly for the listed reasons, the target inside the subtree among them; else only one parent changes. |
| FolderServices.MovesWhenSound | backend/src/folium/services/folders.py:340-371 | A move of an ordinary folder of the owner is accepted if and only if the table after it is such a forest. |
| FolderDeletion.TrashTakesSubtree | backend/src/folium/services/folders.py:404-444 | Trashing reaches every folder and document of the subtree and nothing else; documents remember where they lay and leave the inbox queue, those trashed before are left alone. |
| FolderDeletion.RestoreUndoesTrash | backend/src/folium/services/folders.py:447-480 | Restore right after trash is an identity iff nothing below bore a trash mark and no document was in the inbox queue. |
| FolderDeletion.TrashFolder | backend/src/folium/services/folders.py:404-444 | The exact new tables; trashing twice does nothing the second time; no file reference changes. |
| FolderDeletion.RestoreFolder | backend/src/folium/services/folders.py:447-480 | The exact new tables; a folder that is not trashed is left alone. |
| FolderDeletion.HoistStep | backend/src/folium/services/folders.py:567-590 | Moving one child is refused only for a name in use at the target from the start, whatever was moved before. |
| FolderDeletion.HoistChildren | backend/src/folium/services/folders.py:567-590 | The loop of moves succeeds iff no child's name is in use at the target, and then re-parents exactly the children. |
| FolderDeletion.DeleteHoisting | backend/src/folium/services/folders.py:567-597 | Children and documents end at the target, the folder goes, no document is lost; or nothing changes. |
| FolderDeletion.HoistedFoldersMeaning | backend/src/folium/services/folders.py:567-590 | Exactly the children of the deleted folder get the target as their parent. |
| FolderDeletion.HoistedDocumentsMeaning | backend/src/folium/services/folders.py:591-597 | Exactly its documents move to the target, in the inbox queue when asked or before; only origins that are gone are forgotten. |
| FolderDeletion.DeleteBinning | backend/src/folium/services/folders.py:598-635 | The subtree goes and each of its documents ends trashed in the owner's trash folder. |
| FolderDeletion.BinMeaning | backend/src/folium/services/folders.py:598-635 | Exactly the documents of the subtree end trashed at that time in the trash folder and out of the inbox queue; of the others only origins that are gone are forgotten. |
| FolderDeletion.DeleteToInbox | backend/src/folium/services/folders.py:555-597 | The contents move to the inbox, made first when it is missing, unless names in the root or in the inbox prevent it; then nothing changes. |
| FolderDeletion.DeleteFolder | backend/src/folium/services/folders.py:522-637 | For each strategy the exact outcome, an inbox or trash folder made on the way included; none loses a document row, an owner or a file reference, and the forest and the placement of documents hold after all of them. |
| BlobStore.KeysAreDistinct | backend/src/folium/storage/service.py:128-130 | Keys are equal iff checksum and normalised extension are. |
| BlobStore.ExtensionMeaning | backend/src/folium/storage/service.py:128-130 | Leading dots and ASCII case of an extension do not matter, a plain one is kept, an empty one counts as `bin`. |
| BlobStore.NoCollision | backend/src/folium/storage/service.py:155-159 | A blob already under a key has the content the checksum promises, so the collision error is unreachable. |
| BlobStore.PersistOriginal | backend/src/folium/storage/service.py:150-163 | Keeps an existing blob of the same content, refuses another, else writes. |
| BlobStore.DeleteKeepsStore | backend/src/folium/services/documents.py:458-493 | Deleting a row, with its blob iff nobody else refers to it, keeps the store consistent. |
| BlobStore.OnlyThisCount | backend/src/folium/services/documents.py:477-489 | Deleting the blob is consistent iff the row was the last reference, keeping it iff it was not: the count decides both ways. |
| BlobStore.CreateKeepsStore | backend/src/folium/services/documents.py:297-315 | A new row for content its owner does not have yet keeps the store consistent, whether or not the blob was there. |
| BlobStore.RolledBackDelete | backend/src/folium/services/documents.py:488-489 | Rolling back the row after the blob step is consistent iff the blob was shared. |
| BlobStore.SameFilesKeepStore | backend/src/folium/services/folders.py:522-637 | Whatever only moves or marks documents leaves the blob store consistent. |
| Documents.PermanentlyDelete | backend/src/folium/services/documents.py:458-493 | Goes exactly for a document in the trash, or one in the inbox when allowed; the blobs left are those that some other document refers to. |
| Documents.RemoveFromQueue | backend/src/folium/services/documents.py:496-515 | Exactly an untrashed inbox document is removed, for good; else an error says whether it is unknown to the owner or not in the queue. |
| Documents.TrashDocument | backend/src/folium/services/documents.py:400-414 | Into the owner's trash folder with its origin remembered; a trashed document is left alone. |
| Documents.RestoreDocument | backend/src/folium/services/documents.py:417-455 | To the wanted folder or else the origin when that is an active folder of the owner other than the trash, and to the inbox otherwise; never into a trashed ordinary folder; the inbox flag is set iff it lands there. |
| Documents.MoveDocument | backend/src/folium/services/documents.py:368-397 | Only to a folder of the owner that is not the trash; the document leaves the trash and stays in the inbox queue unless the caller says otherwise and the folder is not the inbox. |
| Documents.DropTrashedDuplicate | backend/src/folium/services/documents.py:263-270 | The trashed document of the same content goes; the old rows are consistent with the blobs left iff it was not a last reference. |
| Documents.TargetFolder | backend/src/folium/services/documents.py:274-295 | Fails exactly when the inbox cannot be had, the folder is not the owner's, or the path is refused; else the folder belongs to the owner, follows the path, and the flag says whether it is the inbox. |
| Documents.AddDocument | backend/src/folium/services/documents.py:297-315 | Exactly one row is added, its blob stored once; the collision error cannot arise. |
| Documents.IngestBytes | backend/src/folium/services/documents.py:198-339 | Fails exactly for the listed reasons. A success leaves one document of that content for the owner, under the key of its checksum and type, where the upload wanted it, and a consistent library; a failure rolls the tables back and leaves the store consistent iff it did not first purge a last reference. |
| Purge.LeafFirstIsSafe | backend/src/folium/services/documents.py:836-860 | Deleting empty folders leaf by leaf never takes a folder whose subtree holds a document or an unexpired folder. |
| Purge.StuckIsComplete | backend/src/folium/services/documents.py:862-863 | When a pass makes no progress, everything that could go is gone. |
| Purge.PurgePass | backend/src/folium/services/documents.py:842-864 | One pass deletes only empty expired folders, and when it deletes none, none of those left is empty. |
| Purge.PurgeDocuments | backend/src/folium/services/documents.py:797-819 | Exactly the expired documents are deleted; none is refused. |
| Purge.PurgeFolders | backend/src/folium/services/documents.py:836-864 | The passes reach the fixpoint within their bound, in whatever order the rows come, and report the right number. |
| Purge.PurgeExpiredTrash | backend/src/folium/services/documents.py:781-870 | A document goes iff it was trashed before the cutoff, for that owner if one is given; an ordinary folder trashed before the cutoff survives iff its subtree still holds a document or a folder outside the expired set; everything else stays as it was. |
| Purge.TrashThenPurge | backend/src/folium/services/documents.py:797-864 | A folder trashed as a whole goes as a whole in a purge whose cutoff is later than its trashing, and stays as a whole in any other. |
| LibraryRuns.PerformOnFolders | backend/src/folium/services/folders.py:26-637 | Any folder service, whatever its outcome, keeps forest, placement and blob store. |
| LibraryRuns.PerformOnDocuments | backend/src/folium/services/documents.py:198-870 | Any document service keeps them as well, except exactly an ingest that is refused after it purged the last reference to a blob. |
| LibraryRuns.RunAll | backend/src/folium/services/documents.py:198-870 | Any operations in any order: every state before an operation is consistent, each operation has its stated effect, and the library is consistent at the end if and only if no ingest of the run lost a blob; then all were carried out. |
| Fusion.ListOrderIrrelevant | backend/src/folium/search/hybrid.py:173-183 | Permuting the lists changes no score. |
| Fusion.AheadScoresHigher | backend/src/folium/search/hybrid.py:180-182 | An item ahead of another in every duplicate-free list that ranks the other scores strictly higher, for k >= 0. |
| Fusion.AheadComesFirst | backend/src/folium/search/hybrid.py:173-183 | Such an item also stands earlier in the result. |
| Fusion.SortMeaning | backend/src/folium/search/hybrid.py:183-183 | The sort is a descending permutation that keeps equal scores in their order. |
| Fusion.CountLists | backend/src/folium/search/hybrid.py:179-182 | The dictionary loops compute, for each item, the sum of 1/(k+rank) over all its positions, keyed in first-seen order. |
| Fusion.ReciprocalRankFusion | backend/src/folium/search/hybrid.py:173-183 | Every item of the lists appears once with its score, best first, ties in first-seen order; defined for every k that never divides by zero. |
| Fusion.FusePassages | backend/src/folium/ai/rag.py:265-290 | The same fusion over passages, each chunk represented by the last passage met, with the fused score. |
| HybridSearch.NeverFused | backend/src/folium/search/hybrid.py:78-115 | Keys of the three searches never coincide, so an entry's score comes from one search only. |
| HybridSearch.ScoreIsRank | backend/src/folium/search/hybrid.py:78-115 | Without repeated hits the score of an entry is the weight of its rank in its own search, halved for documents. |
| HybridSearch.Search | backend/src/folium/search/hybrid.py:70-130 | All entries ranked by score, equal scores in the order of their first appearance, cut to the clamped limit; nothing when both main searches are empty. |
| Context.FitChunks | backend/src/folium/ai/rag.py:293-319 | A greedy choice: in rank order, within limit and budget, and each passage left out came too late or did not fit at that moment. |
| Context.AccountedIsRequest | backend/src/folium/ai/rag.py:299-317 | With right recorded counts, accounting is the exact sum over texts and position labels. |
| Context.Retrieve | backend/src/folium/ai/rag.py:366-377 | The ranking is the fusion when both searches found something, else the one that did, close enough semantic hits only. |
| Context.AtLeastMeaning | backend/src/folium/ai/rag.py:367-368 | Exactly the hits that score at least the minimum are kept, in their order. |
| Context.KeepHistory | backend/src/folium/ai/rag.py:607-615 | The longest prefix of the conversation within the limit. |
| Context.EffectiveWindow | backend/src/folium/ai/profiles.py:87-94 | Never negative, never above the profile's limit or a known provider window, one of the two, and empty only for a limit that is not positive. |
| Context.Ask | backend/src/folium/ai/rag.py:559-616 | The ranking is that of the hits, the evidence its greedy choice within profile and budget, the history the longest prefix within the limit; without evidence the model is not called. |
| Context.AskFits | backend/src/folium/ai/rag.py:559-616 | Whatever the model is called with fits the window together with output reserve and margin if the history limit is not negative, and exceeds it by at most the size of that limit otherwise; the history is the longest prefix within its limit. |
| Context.NothingNeedlesslyLeft | backend/src/folium/ai/rag.py:559-616 | A passage passed over while places were free would have exceeded the window with what was chosen before it, counting no more history than the conversation and the limit have. |
| Context.OverdrawnCall | backend/src/folium/ai/rag.py:559-605 | With a negative history limit a passage that fills the budget is always sent, and prompt, history, evidence, reserve and margin together exceed the window. |
| Context.BoundIsExact | backend/src/folium/ai/profiles.py:97-115 | For a profile and a conversation, no call for any hits exceeds the window if and only if the history limit is not negative, no passage may be sent, or no passage fits the budget with its label. |
| Windows.WordsPrepended | backend/src/folium/ai/filing_context.py:362-392 | Adding a character in front adds at most the word it starts, which makes the suffix estimate monotone. |
| Windows.PieceGrows | backend/src/folium/ai/filing_context.py:367-375 | The estimate of a prefix or suffix never falls with its length. |
| Windows.TakeTokens | backend/src/folium/ai/filing_context.py:362-392 | The binary search, from either end, returns the text if it fits, else its longest prefix or suffix within the budget, trimmed on the open side. |
| Windows.TakeAround | backend/src/folium/ai/filing_context.py:395-413 | The widening loop ends with the first of its widths whose stretch around the centre reaches the budget, cut back to its longest fitting prefix. |
| Windows.TakenAroundIsUnique | backend/src/folium/ai/filing_context.py:395-413 | Text, centre and budget determine the window. |
| Windows.TakenNearCentre | backend/src/folium/ai/filing_context.py:400-408 | The window begins within a width of the centre that is the least one or widens, by a quarter of the stretch and by the unit at least, one whose stretch is still below the budget. |
| Windows.SharesSpendBudget | backend/src/folium/ai/filing_context.py:334-342 | The four shares add up to the budget iff it is at least four tokens, and to four otherwise; from five tokens on the first is three tenths and the middle ones a fifth each, rounded down. |
| Windows.WindowsFit | backend/src/folium/ai/filing_context.py:349-359 | Stripped windows together cost at most the shares, whichever of them are blank. |
| Windows.WindowsDetermined | backend/src/folium/ai/filing_context.py:332-359 | The text and the budget leave no choice of windows. |
| Windows.SampleWindows | backend/src/folium/ai/filing_context.py:332-359 | Beginning, two middles and ending in order, blank ones left out, together within the budget when it is at least four tokens. |

## Left out

- The real tokenizer: decoding a slice of tokens and encoding it again need not keep a bound. Chunking and text windows use
  the word-count branch; the chat context takes the tokenizer as an arbitrary cost function.
- SQL, ORM sessions, row locks, full-text and vector ranking; HTTP, MCP and web layers; OCR, rendering, archive and database tools.
- `workers/processor.py`: a job body is an arbitrary success or failure. `retry_delay` and error classification from message
  patterns are parameters.
- Section titles, heading detection, content hashes, error texts, usage records and activity counters.
- Vector padding and the provider, model and dimension columns of a chunk.
- EmbeddingRun.EmbeddingJob.ProcessDocument: an exception other than a provider error is not modelled; it leaves the last committed batch, which the
  per-batch facts describe.
- EmbeddingRun.EmbeddingJob.Drain: assumes that a job reaches its first batch before its time budget is spent and that no job is cancelled.
- Chunking.ChunkPages: asks for a token bound of at least one, which the limits in use always are; a bound below one has no safe chunk.
- Jobs.JobQueue.CompleteJob: reads the current row, which is an idealisation of the worker: there `session.get` may return the job that
  the same session loaded before its body ran, and then a cancellation committed elsewhere meanwhile is not seen and is overwritten.
- Workers.Worker.FinishJob: leaves out the indexing job that follows a soft failure, the error texts and the embedding status of the document.
- LibraryRuns.RunAll: stops at an ingest that lost a blob; what later operations do to a store with a missing blob is not modelled.
- The order in which `asyncio` runs the tasks of one worker beyond the interleaving of service calls.
- `path_cache` texts, `rename_folder`, folder counts, sort order, and trimming of names (names are taken as already trimmed).
- Documents.IngestBytes: the storage quota is a yes or no from outside, and so are the detected type and its extension.
- Metadata, tags, pending folder paths, derived previews and thumbnails.
- `empty_trash`: the same two loops as the purge without a cutoff.
- A change of the original files outside the storage service, and storage errors in the middle of a call.
- Lower-casing of extensions outside ASCII.
- Fusion.ReciprocalRankFusion: exact reals instead of floating-point sums. The factors 1.3, 0.3, 0.2, 0.33 and 0.66 are exact fractions as well.
- Texts and titles of hybrid hits; only keys and scores are modelled.
- Context.Ask: the label of a passage is any text of at least one token; the joined messages may tokenize to slightly different counts,
  which the safety margin is for.
