# OrangeServer AI operations: verification model

This project models the stateful core of the AI operations backend (`backend/app/ai`) in
Dafny and proves what it promises over every input, every run and every interleaving.

- **Knowledge index** (`KnowledgeIndex`, `KnowledgeChunks`, `KnowledgeSafety`,
  `KnowledgeTheorems`, `KnowledgeService`). Relational documents are the truth, a Redis store
  of chunks is the index. Edits, configuration saves, requests, errors and overlapping
  rebuild workers are the steps of a transition system; each database transaction and each
  group of Redis commands is one step. A worker that dies without reaching its exception
  handler stays in the set of running workers. `KnowledgeService` is the imperative service;
  each of its methods is proved to be one step, or a run of steps, of that system.
- **Search** (`RankFusion`, `KnowledgeSearch`, `Utf8`). Reciprocal-rank fusion over `real`,
  the filter against the documents, and the capped answer.
- **Agent conversation** (`Transcript`, `Context`, `RunLock`, `AgentStorage`, `AgentGuard`,
  `AgentLoop`). Redis is a set of maps with expiry times and a clock that only moves forward.
  The provider, the tools, failures, a client that hangs up and other runs of the same
  conversation are an arbitrary oracle; the other runs take the lock as everybody does.
- **Diagnostics** (`DiagnosticService`, `DiagnosticCollection`, `DiagnosticRepository`,
  `DiagnosticAnalyzer`).
  Collection under one evidence budget, cancellation and permission loss at any moment, the
  numbered event log with its polling clients, and the citing analyzer.
- **Smaller algorithms** (`GrafanaPanels`, `Selector`, `ProviderConfig`).

Some conventions. Splitting, hashing, sanitizing, JSON rendering, regular expressions and
placeholder expansion are function parameters about which nothing is assumed, so no theorem
depends on collision-free hashes. Random hexadecimal identifiers of one length are natural
numbers: their text order is the order of the numbers. Fingerprints are opaque values
compared for equality. A `ghost` field such as `trace` or `log` records what a run did, for
its contract only. Where the code and its comments could be read differently, the code is
followed.

## Model

| member | source | states |
|---|---|---|
| `KnowledgeTheorems.ReadyMeansExact` | backend/app/ai/knowledge.py:641-733 | Over every run of the step system (edits, deletions, config saves, redeployments, requests, index errors, any number of overlapping, failing or hanging rebuilders): when the state is `ready` and nothing is queued or running, the store holds, for every approved document and no other, one record a chunk of its split content; each record has the id, current version, title, source type, source reference and scope of its document and the heading and text of its chunk, and every document carries the configured fingerprint |
| `KnowledgeTheorems.LoneRebuilderWasAlone` | backend/app/ai/knowledge.py:550-556 | Key lemma of the protocol: `rebuilding`, one worker in flight and no queued request together imply that this worker has been the only worker since the very step that started it |
| `KnowledgeTheorems.UnmarkedWasAlone` | backend/app/ai/knowledge.py:641-657 | The proof's overlap mark means what it says: an unmarked worker was alone since its start |
| `KnowledgeTheorems.AloneIsUnmarked` | backend/app/ai/knowledge.py:641-657 | The converse, so that the mark is equivalent to having been alone |
| `KnowledgeTheorems.LoneRebuilderPublishes` | backend/app/ai/knowledge.py:696-724 | A worker that nobody overlapped passes all three comparisons of the last transaction, publishes `ready` or `empty`, and what it publishes is exact, with `indexed_chunks` the size of the store |
| `KnowledgeTheorems.StepsAddUp` | backend/app/ai/knowledge.py:550-657 | Conservation: along every run the queue is what was accepted less what was taken up or dropped, the workers are those that started and did not end, and the settings are the last ones saved or deployed; so a state is quiet exactly when all of that is done |
| `KnowledgeTheorems.PublishedCounters` | backend/app/ai/knowledge.py:659-724 | In every reachable `ready` or `empty` state, quiet or not: `indexed_chunks` is the sum of the `chunk_count` columns, at most 20000, and positive exactly in `ready` |
| `KnowledgeTheorems.EmptyMeansNoChunks` | backend/app/ai/knowledge.py:718-724 | A rebuild that publishes `empty` leaves no document that has a chunk |
| `KnowledgeTheorems.RebuildingHasOwner` | backend/app/ai/knowledge.py:550-556 | The word `rebuilding` is never left behind: some request is queued or some worker runs |
| `KnowledgeTheorems.HistoryOnlyGrows` | backend/app/ai/knowledge.py:518-542 | Id and version determine a body for ever: no commit changes what an earlier version said |
| `KnowledgeTheorems.StoredRecordIsCurrent` | backend/app/ai/knowledge.py:774-792 | A record read from the store at any moment, whose version equals that of the document at any other moment of the same run, says, column by column, what that document and its chunk at that position say |
| `KnowledgeTheorems.ReadyWhileRunningMayMissChunks` | backend/app/ai/knowledge.py:680-696 | Why quiescence is required: a concrete run that ends `ready`, nothing queued, one rebuilder running, and an empty store |
| `KnowledgeTheorems.ReadyWhilePendingMayMissChunks` | backend/app/ai/knowledge.py:550-556 | The same with no rebuilder running but a request queued, accepted while an overlapped worker was still to finish |
| `KnowledgeSafety.InvRun` | backend/app/ai/knowledge.py:487-733 | Every reachable world satisfies the protocol invariant |
| `KnowledgeSafety.InvStep` | backend/app/ai/knowledge.py:487-733 | Each of the 13 kinds of step keeps the invariant: history, store contents, snapshots, lone-worker, counters and completeness |
| `KnowledgeSafety.LoneStep` | backend/app/ai/knowledge.py:550-556 | Each step keeps: `rebuilding` has an owner; if that is one worker and nothing is queued, it was never overlapped, and documents and fingerprint are still those it looked at |
| `KnowledgeSafety.CompleteStep` | backend/app/ai/knowledge.py:696-724 | Each step keeps completeness of `ready` states at rest; the step that establishes it is the finish of a lone worker |
| `KnowledgeSafety.LoadFromHistory` | backend/app/ai/knowledge.py:680-696 | Loading a part of a snapshot leaves in the store only chunks of bodies that were committed under their id and version |
| `KnowledgeChunks.ListingUnique` | backend/app/ai/knowledge.py:663-665 | A query ordered by id returns its rows in one order only |
| `KnowledgeChunks.PreparedAt` | backend/app/ai/knowledge.py:666-679 | Every prepared entry is a chunk of a listed document under its own id, version and position |
| `KnowledgeChunks.PreparedHas` | backend/app/ai/knowledge.py:666-679 | Every chunk of every listed document is prepared |
| `KnowledgeChunks.PreparedDistinct` | backend/app/ai/knowledge.py:682-687 | Record ids never repeat within a rebuild |
| `KnowledgeChunks.LoadedIsComplete` | backend/app/ai/knowledge.py:680-696 | Loading the prepared list into an emptied store gives exactly the current index, one record a chunk |
| `KnowledgeSafety.ExactSaysAll` | backend/app/ai/knowledge.py:681-695 | An exact store, written out: every record has the columns of its document and the text of its chunk, and no chunk is missing |
| `KnowledgeChunks.LoadSplit` | backend/app/ai/knowledge.py:681-696 | Loading in batches is loading at once, whatever the batches |
| `KnowledgeChunks.PublishedTotal` | backend/app/ai/knowledge.py:718-722 | The published `chunk_count` columns add up to the number of loaded chunks |
| `KnowledgeServices.KnowledgeService.CreateDocument` | backend/app/ai/knowledge.py:493-516 | From any reachable state of the transition system, the call leads to the state after its step `Create`: the row is stored as version 1, approved, not indexed, and the index is stale; the rows and store stay those of a run, so every theorem about runs holds of them |
| `KnowledgeServices.KnowledgeService.UpdateDocument` | backend/app/ai/knowledge.py:518-542 | The field-wise comparison and writing is exactly the step `Update`: only when a field differs the row gets the next version and loses its index columns, and the index becomes stale; a missing id is an error and takes no step |
| `KnowledgeServices.KnowledgeService.EditRow` | backend/app/ai/knowledge.py:524-541 | The edited row, column by column: an edit that changes no field leaves the row as it was, any other sets the named fields, the hash of the new content and the next version |
| `KnowledgeServices.KnowledgeService.DeleteDocument` | backend/app/ai/knowledge.py:544-548 | Exactly the step `Delete`; a missing id is an error and takes no step |
| `KnowledgeServices.KnowledgeService.SaveConfig` | backend/app/ai/knowledge.py:408-430 | Exactly the step `Save`; afterwards the reported state is `ready` only if it was before or the stored fingerprint is unchanged |
| `KnowledgeServices.KnowledgeService.MarkIndexError` | backend/app/ai/knowledge.py:558-563 | Exactly the step `IndexError`, with or without a queued request that is dropped |
| `KnowledgeServices.KnowledgeService.RequestReindex` | backend/app/ai/knowledge.py:550-556 | Exactly the step `Request`, refused without a step exactly in state `rebuilding` |
| `KnowledgeServices.KnowledgeService.PrepareChunks` | backend/app/ai/knowledge.py:660-679 | The loop over the documents computes the chunk list, the manifest and the counts, and gives up exactly when the whole list would exceed 20000 chunks |
| `KnowledgeServices.KnowledgeService.FillStore` | backend/app/ai/knowledge.py:680-696 | The 64-record loop is the steps `Reset` and `LoadSome` of 64 records or the rest; it loads every chunk exactly once into the emptied store; a failure before or after the store is dropped leaves the old or an empty store, one in batch b exactly the first b batches |
| `KnowledgeServices.KnowledgeService.Publish` | backend/app/ai/knowledge.py:697-724 | Exactly the step `Finish`: compares the three conditions on the rows as they are now, and publishes the configuration with the fingerprint and the number of records, or only marks stale |
| `KnowledgeServices.MayPublishMeans` | backend/app/ai/knowledge.py:697-717 | The comparison, written out: still rebuilding, same fingerprint, and the approved documents now and then are the same, with the same versions and hashes |
| `KnowledgeServices.PublishedRow` | backend/app/ai/knowledge.py:718-722 | What publishing writes in a row: the fingerprint and the number of chunks of its snapshot for an approved document, nothing else |
| `KnowledgeServices.KnowledgeService.Reindex` | backend/app/ai/knowledge.py:641-733 | From any reachable state, a rebuild that nobody disturbs is the run `Start, Snapshot, Reset, LoadSome*, Finish` of the transition system (or ends in `Fail` where it breaks), and ends in exactly its rows and store; after a success the store says, column by column, what the documents and their chunks say, and nothing else; a failure ends in `error` |
| `KnowledgeServices.KnowledgeService.Begin` | backend/app/ai/knowledge.py:644-657 | The first transaction is exactly the step `Start` |
| `KnowledgeServices.KnowledgeService.TakeSnapshot` | backend/app/ai/knowledge.py:659-679 | The query and its loop are exactly the step `Snapshot` of the rows as they are then; the local variables say what the snapshot says |
| `KnowledgeServices.KnowledgeService.ResetStore` | backend/app/ai/knowledge.py:680-680 | Exactly the step `Reset` |
| `KnowledgeServices.KnowledgeService.LoadBatch` | backend/app/ai/knowledge.py:681-696 | One turn of the loop is exactly one step `LoadSome`, of 64 records or the rest |
| `KnowledgeServices.KnowledgeService.GiveUp` | backend/app/ai/knowledge.py:725-732 | The exception handler is exactly the step `Fail` |
| `KnowledgeServices.OthersKeepJob` | backend/app/ai/knowledge.py:641-733 | Between the parts of a rebuild anybody may take any step: the worker stays where it was and its local variables stay right, so the parts refine every interleaving |
| `KnowledgeServices.KnowledgeService.ReadyIsExact` | backend/app/ai/knowledge.py:487-733 | After any calls in any order, a quiet `ready` state has exactly the current index in the store |
| `KnowledgeServices.KnowledgeService.constructor` | backend/app/ai/knowledge.py:318-337 | A fresh installation is an initial state |
| `KnowledgeServices.UndisturbedRebuild` | backend/app/ai/knowledge.py:641-733 | A rebuild that nobody disturbs passes the comparison and publishes an exact index, `ready` exactly when there is a chunk |
| `KnowledgeSearch.TakeValid` | backend/app/ai/knowledge.py:789-815 | The loop with its byte budget is exactly "the first `limit` valid hits, cited K1 to Kn": the 16 KiB break is unreachable |
| `KnowledgeSearch.Search` | backend/app/ai/knowledge.py:735-815 | From the two rankings to the cited answer: errors for bad queries and limits, no answer without scopes or when not `ready` under the current settings; otherwise the candidates are at most 32 found records by descending sum of 1 / (60 + rank), none left out that scores more, in the order of the ranking where only one query found anything, and the answer is the first min(limit, 8) of them that exist, are approved, in scope, at the current version and under the fingerprint, each cited with the columns of its document |
| `KnowledgeSearch.CitesFirst` | backend/app/ai/knowledge.py:789-815 | The filter, the order and the citation written out: which hits may be cited, that none before the last cited one is passed over, and what an item says |
| `KnowledgeSearch.SearchIsSound` | backend/app/ai/knowledge.py:735-815 | With no assumption about rebuilds: each item of an answer is a capped, sanitized prefix of a chunk of the current content of an existing, approved, in-scope document that carries the fingerprint the search read; each record found by either query may come from the store at a moment of its own, and configuration and documents from yet other moments of the run |
| `KnowledgeSearch.ValidHitsAre` | backend/app/ai/knowledge.py:791-797 | The filter keeps exactly the valid hits, in score order |
| `KnowledgeSearch.ScoresNeverIncrease` | backend/app/ai/knowledge.py:769-771 | Scores never increase down an answer |
| `KnowledgeSearch.ExcerptSize` | backend/app/ai/knowledge.py:798-801 | An excerpt takes at most 1600 octets |
| `Utf8.SizeBounds` | backend/app/ai/knowledge.py:799-799 | A text of n characters takes between n and 4n octets (section 3 of RFC 3629) |
| `RankFusion.Fuse` | backend/app/ai/knowledge.py:246-255 | The fused list: each item was found and is scored with the sum of 1 / (60 + rank) over its places in both rankings, by descending score, cut to the limit, and nothing found is left out that scores more; with one empty ranking it is the other one in its order, cut to the limit |
| `RankFusion.Count` | backend/app/ai/knowledge.py:246-254 | The dictionary loop counts exactly the votes of both rankings for each key |
| `RankFusion.RankedProperties` | backend/app/ai/knowledge.py:255-255 | The sort gives a descending permutation that keeps the order of equal scores |
| `RankFusion.RankedSorted` | backend/app/ai/knowledge.py:769-771 | Sorting the fused list again, as the caller does, changes nothing |
| `RankFusion.SingleVote` | backend/app/ai/knowledge.py:252-254 | A key that occurs once in a ranking gets 1 / (60 + rank) |
| `RankFusion.TallyIsRankSum` | backend/app/ai/knowledge.py:246-254 | What the dictionary adds up for a key is the sum of 1 / (60 + rank) over its places in a ranking |
| `RankFusion.EarlierOutranksLater` | backend/app/ai/knowledge.py:246-255 | Of two candidates that only one of the queries found, without repeated keys, the earlier one scores strictly more |
| `RankFusion.OneRanking` | backend/app/ai/knowledge.py:246-255 | What a single ranking without repeated keys found is returned in its order, cut to the limit |
| `RankFusion.BestAreThere` | backend/app/ai/knowledge.py:255-255 | A found record whose key is not in the answer scores no more than anything in it, and then the answer is full |
| `RankFusion.BothOutrankOne` | backend/app/ai/knowledge.py:246-255 | When no key repeats within a ranking, whatever both queries found scores above whatever only one found, at any ranks up to 32 |
| `RankFusion.BothRankedFirst` | backend/app/ai/knowledge.py:246-255 | The same for places in the ranking |
| `Transcript.RoundsAreWellShaped` | backend/app/ai/runner.py:613-645 | Every list of rounds (a question; groups of an assistant message and answers to the first k of its calls in order; k < n only in the last group) is accepted by the shape recogniser |
| `Transcript.WellShapedIsRounds` | backend/app/ai/runner.py:613-645 | Everything the recogniser accepts is such a list of rounds: the two descriptions are equivalent |
| `Transcript.CutKeepsShape` | backend/app/ai/context.py:150-151 | Dropping everything before a user message leaves the shape as it was |
| `Transcript.UserIndexesAre` | backend/app/ai/context.py:143-146 | The index list names exactly the user messages, in order |
| `Transcript.RoundsAfterCut` | backend/app/ai/context.py:150-152 | The suffix from the i-th user message has exactly the rounds from it on |
| `Context.CompressKeepsRounds` | backend/app/ai/context.py:134-168 | A compression takes effect exactly when it should, there are more than `keep_rounds` rounds and the summary is nonempty; then it keeps exactly the last `keep_rounds` rounds, as a suffix starting with a user message, with that summary, and keeps the shape |
| `Context.CompressIsIdempotent` | backend/app/ai/context.py:134-168 | A second compression finds nothing to cut, whatever its estimate and summarizer say |
| `Context.EstimateIsLength` | backend/app/ai/context.py:80-84 | The estimate is always the number of characters; the octet bound never wins |
| `Context.ContextManager.constructor` | backend/app/ai/context.py:46-78 | Each field for all inputs: the window at least 1024, the reserves within their bounds and together at most window - 128, requests in range honoured, threshold and kept rounds clamped |
| `Context.ContextManager.SetRuntimeReservations` | backend/app/ai/context.py:86-98 | The runtime reserve becomes the length of the JSON text |
| `Context.ContextManager.EffectiveInputTokens` | backend/app/ai/context.py:100-107 | The input budget is never below 128 |
| `Context.AdmittedRequestsFit` | backend/app/ai/context.py:100-107 | Every request within the budget fits the window if and only if the runtime reserve leaves the minimum of 128 tokens |
| `Context.BudgetIsTight` | backend/app/ai/context.py:100-107 | While the reserves leave the minimum, the input budget is the greatest request that fits: one character more does not |
| `RunLock.GrantedIsLive` | backend/app/ai/storage.py:192-232 | A granted acquire or refresh holds the key, with the granted expiry, until that expiry or a call of its own |
| `RunLock.LiveWasGranted` | backend/app/ai/storage.py:192-232 | The converse: a live token was granted by a call of its own |
| `RunLock.AtMostOneGranted` | backend/app/ai/storage.py:199-208 | At most one token is granted in any reachable state |
| `RunLock.NobodyElseAcquires` | backend/app/ai/storage.py:192-208 | While a grant lasts no other acquire succeeds, and it leaves the lock alone |
| `RunLock.LateCallsChangeNothing` | backend/app/ai/storage.py:15-26 | A release or refresh by a token that holds no grant changes nothing |
| `RunLock.LiveThroughout` | backend/app/ai/storage.py:15-26 | A lost token never comes back: one that is live was live ever since it was acquired |
| `RunLock.NoForeignWrite` | backend/app/ai/storage.py:192-232 | Between acquiring and still holding the lock, no write by a live token is a foreign one |
| `RunLock.ReadModifyWrite` | backend/app/ai/storage.py:167-190 | A run that reads and later writes while it holds the lock overwrites exactly the revision it read |
| `RunLock.ExpiredWriterLosesUpdate` | backend/app/ai/storage.py:122-138 | Why writers must hold the lock: a run that writes after its lease makes the new holder, which does hold the lock, overwrite a revision it never read |
| `AgentStorage.AgentStore.Put` | backend/app/ai/storage.py:122-130 | The value under its own key and score, with the index kept at least as long |
| `AgentStorage.AgentStore.SaveConversation` | backend/app/ai/storage.py:132-138 | Replaces the stored value, stamped now; a foreign owner changes nothing |
| `AgentStorage.AgentStore.GetConversation` | backend/app/ai/storage.py:140-144 | Finds exactly the live conversation of that owner |
| `AgentStorage.AgentStore.AppendMessage` | backend/app/ai/storage.py:167-179 | Adds one message at the end of what is stored |
| `AgentStorage.AgentStore.AppendEvent` | backend/app/ai/storage.py:181-190 | Adds one event to what is stored and keeps the last 200 |
| `AgentStorage.RecentAppend` | backend/app/ai/storage.py:188-189 | Trimming at each append equals trimming once at the end |
| `AgentStorage.AgentStore.AcquireRunLock` | backend/app/ai/storage.py:192-208 | Refines the lock model: granted exactly when free, ttl at least 30, conflict otherwise, other locks untouched |
| `AgentStorage.AgentStore.ReleaseRunLock` | backend/app/ai/storage.py:210-217 | Refines the lock model: only the holder's release frees the key |
| `AgentStorage.AgentStore.RefreshRunLock` | backend/app/ai/storage.py:219-232 | Refines the lock model: succeeds exactly for the holder |
| `AgentStorage.AgentStore.CreateResultSet` | backend/app/ai/storage.py:266-295 | The result is stored and added to the live members of the index of its conversation, with the same expiry; the index never expires before it |
| `AgentStorage.AgentStore.DeleteConversation` | backend/app/ai/storage.py:234-248 | Removes the conversation, its entry in the index of its owner and its results; no live result of it remains, and no other result, entry or owner is touched |
| `AgentStorage.DeleteResults` | backend/app/ai/storage.py:234-248 | Deleting the members of the result index takes every live result of the conversation and none of another |
| `AgentStorage.AgentStore.CleanupOldConversations` | backend/app/ai/storage.py:250-264 | The loop terminates; the index entries it leaves are the old ones with their scores, as many as `max_conversations` allows, and each of them has a greater score, or the same score and a greater id, than each entry that fell out; exactly the live conversations that fell out are gone |
| `AgentStorage.TopMeans` | backend/app/ai/storage.py:250-264 | Who is in the greatest entries, by score and then id, written out |
| `AgentStorage.AgentStore.Evict` | backend/app/ai/storage.py:253-264 | One turn: a dead member is only unindexed, a live one deleted |
| `AgentStorage.TopIsUnique` | backend/app/ai/storage.py:250-264 | There is only one such set of greatest entries |
| `AgentStorage.StaysIff` | backend/app/ai/storage.py:250-264 | An entry stays if and only if fewer than `max_conversations` entries are above it by score and id |
| `AgentStorage.AgentStore.CreateConversation` | backend/app/ai/storage.py:89-120 | The index is cut to its greatest entries; the new conversation is stored exactly if it is one of them, and surely when every other score is below now and at least one may stay; exactly the live conversations that fell out are gone |
| `AgentLoop.AgentRun.Run` | backend/app/ai/runner.py:414-877 | For every behaviour of provider, tools, clock, client, failures and other runs: unless another run has got in, the stored conversation is the one found plus everything the run logged (messages cut only in front of a user message, events to the last 200, the newest result set), in the shape of rounds; each logged message is the question, a reply of the provider with its content and calls, or the text of the tool that ran. A completed run logged the question first and last the stripped content of the provider's reply to its last request; a run that fails says why: stopped, overtaken, over budget, out of steps or not admitted. While each wait is under 150 seconds nobody writes before the run's last save, and every save is made under the lock; nobody writes before the last save of a run that completes, and with such waits nobody at all gets into it before it lets go of the lock. Every save was made under the lock if and only if the last renewal was less than 600 seconds ago. No other conversation changes, the lock is not left behind, and nothing changes when the lock is taken or the message empty |
| `AgentLoop.AgentRun.Locked` | backend/app/ai/runner.py:437-846 | The same between acquiring and releasing: a completed run logged the user's message first and the reply to its last request last |
| `AgentLoop.AgentRun.Loop` | backend/app/ai/runner.py:532-660 | The loop over the steps: a run that fails out of steps has sent exactly as many requests as it has steps |
| `AgentLoop.AgentRun.Prepare` | backend/app/ai/runner.py:532-572 | Before a request: the lock is renewed in this step, the reserve is the length of what is announced now, the history is compressed if need be, and exactly the request for it is booked |
| `AgentLoop.AgentRun.Step` | backend/app/ai/runner.py:532-660 | One step of the loop sends at most one request for an answer, keeps the account and ends with all calls answered, with the reply to this request stored as the final answer, or stops for a reason |
| `AgentLoop.AgentRun.Answer` | backend/app/ai/runner.py:599-846 | Telemetry with the tokens of the reply is saved from an up-to-date copy; then exactly the stripped content of a reply without calls is stored, or the reply's content and calls, after which each call gets one answer |
| `AgentLoop.AgentRun.Calls` | backend/app/ai/runner.py:646-832 | The calls are answered one after the other, in order |
| `AgentLoop.AgentRun.Call` | backend/app/ai/runner.py:646-840 | One call: its two events around whatever the tool records, and exactly one tool message for its id, whose text is the answer of the tool that ran then; it fails only when the client is gone, the lease is over or the conversation has expired |
| `AgentLoop.AgentRun.ExecuteTool` | backend/app/ai/runner.py:661-743 | The text is what the tool that ran answers, or the text of a failure when it could not store what it had to; a tool appends no message and loses no event; only a client that hangs up ends the run here; it waits once, and once more at a draft's event |
| `AgentLoop.AgentRun.Follow` | backend/app/ai/runner.py:661-715 | A diagnosis renews the lock before each report it records; it waits at the event and for the next report |
| `AgentLoop.AgentRun.Perform` | backend/app/ai/runner.py:646-832 | Renewal, event, tool, event, renewal; at most four waits between renewals |
| `AgentLoop.AgentRun.Ask` | backend/app/ai/runner.py:574-606 | The reply is the provider's to this request; the lock is renewed at each fragment and at the answer, with at most two waits in between; an answer arrives directly after a renewal, none only for a reason |
| `AgentLoop.AgentRun.Leave` | backend/app/ai/runner.py:852-877 | The last event is a wait with the lock still held; it adds no save, so whoever gets in then writes after all of them; then the lock is released |
| `AgentLoop.AgentRun.StoreRows` | backend/app/ai/tools.py:365-379 | A tool's own read-modify-write of `last_result_set_id` is kept and logged |
| `AgentLoop.AgentRun.Compress` | backend/app/ai/runner.py:248-367 | Messages and summary become exactly what the pure compression yields for the summarizer's answer; the request is booked with its size |
| `AgentLoop.AgentRun.Summarize` | backend/app/ai/runner.py:248-367 | Written out: a nonempty summary drops everything before the kept rounds and counts an accepted attempt, any other answer leaves the messages and counts a failure, with the tokens used; the save that follows overwrites another run's write if and only if one got in while the summarizer worked, that is, came when the lease was over |
| `AgentLoop.AgentRun.AsksMeans` | backend/app/ai/context.py:109-155 | The summarizer is asked exactly when there are more rounds than are kept and the history reaches the threshold of the input budget; it is asked about everything before the kept rounds |
| `AgentLoop.AgentRun.SaveMetrics` | backend/app/ai/runner.py:369-412 | A whole-conversation save of a copy with other counters; unless another run has got in, that copy is what is stored, so nothing is overwritten |
| `AgentLoop.AgentRun.SaveCut` | backend/app/ai/runner.py:289-367 | The same for the compressed copy, whose cut is in front of a user message |
| `AgentLoop.AgentRun.CheckBudget` | backend/app/ai/runner.py:549-572 | A request for an answer is sent if and only if the length of its text is within the window less the three reserves, or 128 if that is more; otherwise the refusal is saved and nothing is sent |
| `AgentLoop.AgentRun.AnswerRequestsFit` | backend/app/ai/runner.py:549-572 | Every request for an answer that is sent while the runtime reserve leaves the minimum fits the window with both reserves |
| `Context.SummaryMayNotFit` | backend/app/ai/runner.py:259-272 | The request for a summary need not fit: for every context manager there is a conversation that a run can store (questions within 8000 characters, one long tool answer) and that is to be cut, whose request exceeds the window |
| `Context.SummaryFitsIff` | backend/app/ai/runner.py:259-272 | Exactly when it does, for all histories to be cut: the estimate of the history, less what the kept rounds take and with the spaces of the old messages, is at most the window less the fixed text of the request |
| `AgentLoop.AgentRun.SummaryRequestFitsIff` | backend/app/ai/runner.py:259-272 | The same of every summary request that a run sends |
| `Context.BudgetedSummaryFits` | backend/app/ai/runner.py:549-572 | It fits for every history within the input budget whose spaces and the fixed text take no more than the reserves and the kept rounds |
| `Context.SummaryRequestLength` | backend/app/ai/runner.py:259-272 | The length of the request, from the estimate of the history |
| `AgentLoop.AgentRun.Pause` | backend/app/ai/runner.py:532-600 | While time passes another run may come; it writes if and only if the lease is over and the conversation is still there |
| `AgentLoop.AgentRun.RenewLock` | backend/app/ai/runner.py:437-442 | Succeeds if and only if the last renewal was less than 600 seconds ago; the next lease runs from now |
| `AgentGuard.SavedAlone` | backend/app/ai/storage.py:192-232 | From its acquire to its last save under the lock, a run alone wrote the conversation, by the lock model's mutual exclusion |
| `AgentGuard.OnlyLateSavesOverwrite` | backend/app/ai/runner.py:366-366 | A save that follows another run's write was made after the lease; replies, tool answers, start events, progress and telemetry are never saved so late |
| `AgentGuard.SavedTells` | backend/app/ai/storage.py:219-232 | A save directly after a renewal is made under the lock; any save is, exactly within the lease |
| `AgentLoop.AgentRun.Append` | backend/app/ai/storage.py:167-179 | In the run: one more message, next shape, and an up-to-date copy |
| `AgentLoop.AgentRun.Record` | backend/app/ai/runner.py:230-246 | In the run: one more event, no message |
| `DiagnosticServices.DiagnosticRun.Start` | backend/app/ai/diagnostics.py:731-1019 | A whole diagnosis against any interleaved cancels and permission losses: refused exactly for the four reasons and then nothing changes; crashed exactly if some probe's batch raised; otherwise concluded, with every check truthful, probes in order until a check stopped them, the budget was spent or all had run, the event log numbered, and as evidence every item the probes returned, in order, with its host, alias, success, probe and kind, and its sanitized text cut no shorter than the limits and the budget left require |
| `DiagnosticServices.DiagnosticRun.EndOfRun` | backend/app/ai/diagnostics.py:951-1002 | The status of every concluded run as a function of what happened: cancelled if a cancel was recorded after the closing update; else interrupted if a check found the authorization gone first; else cancelled if a cancel was recorded before the last check; else decided by how many targets succeeded. Successes and failures add up to the targets |
| `DiagnosticServices.DiagnosticRun.ResultMeans` | backend/app/ai/diagnostics.py:951-983 | What the probes returned decides a run that nobody stopped: completed exactly when every target has returned items and all of them succeeded, failed exactly when no target does |
| `DiagnosticServices.DiagnosticRun.CompletedMeans` | backend/app/ai/diagnostics.py:951-983 | Whatever happened, a run that ends completed had items of every target and all of them succeeded |
| `DiagnosticServices.DiagnosticRun.SucceededMeans` | backend/app/ai/diagnostics.py:951-963 | A target succeeds by its stored evidence exactly when some item of it was returned and all of them succeeded |
| `DiagnosticServices.DiagnosticRun.KeptFromProbes` | backend/app/ai/diagnostics.py:915-939 | Evidence item i has the host, alias, success, probe and kind of item i that the probes returned, a prefix of its sanitized output and error, and is marked truncated exactly if it was or was cut |
| `DiagnosticServices.DiagnosticRun.StoppedRunReportsNothing` | backend/app/ai/diagnostics.py:941-983 | A cancel recorded, or an authorization found missing, at or before the last check: the run is neither completed nor partial |
| `DiagnosticServices.DiagnosticRun.StopMeans` | backend/app/ai/diagnostics.py:844-863 | The run is called stopped exactly if a cancel was recorded before the last check or some check found the authorization gone |
| `DiagnosticServices.DiagnosticRun.CancelIsIgnored` | backend/app/ai/diagnostics.py:984-1002 | A recorded cancel leaves no mark on the status if and only if no check saw a reason to stop, one came between the last check and the closing update, and none came after it |
| `DiagnosticServices.DiagnosticRun.VerdictStays` | backend/app/ai/diagnostics.py:990-1002 | The status of the closing update is the final one if and only if no cancel is recorded after it or it says cancelled itself |
| `DiagnosticServices.CancelIsOverwritten` | backend/app/ai/diagnostics.py:941-1002 | A concrete run with one recorded cancel that ends completed: a terminal status is not final |
| `DiagnosticServices.DiagnosticRun.StopIsFinal` | backend/app/ai/diagnostic_adapters.py:111-113 | No probe starts after a check that comes after a recorded cancel or finds the authorization gone, whether the run concludes or crashes |
| `DiagnosticServices.DiagnosticRun.Collect` | backend/app/ai/diagnostic_adapters.py:93-169 | Probes run in order, each after a truthful check; the budget left plus the text kept is always the total; the items are exactly those returned, cut to fit; collecting ends early only for a stop, a spent budget or a batch that raised |
| `DiagnosticServices.DiagnosticRun.RunProbe` | backend/app/ai/diagnostic_adapters.py:111-168 | One batch extends the items and spends exactly their length; each item is the returned one, cut exactly as the item limit, the limit of its probe and the budget left before it require; each report of the batch is in the progress |
| `DiagnosticCollection.TakeItems` | backend/app/ai/diagnostic_adapters.py:144-168 | The item loop keeps every raw item once, in order, as long as the limit and what the items before it left allow, and conserves the budget |
| `DiagnosticCollection.TakeItem` | backend/app/ai/diagnostic_adapters.py:145-168 | The kept text is a prefix of the sanitized output, as long as all limits allow; any cut sets `truncated`; host, alias and success are the raw ones |
| `DiagnosticServices.DiagnosticRun.EvidenceFits` | backend/app/ai/diagnostic_adapters.py:108-156 | The stored evidence of a run is never longer than the budget |
| `DiagnosticServices.DiagnosticRun.constructor` | backend/app/ai/diagnostic_adapters.py:78-91 | Limits in range are taken over; limits are at least 256 and the total at least the item limit; targets are the request without repeats |
| `DiagnosticServices.DistinctInOrder` | backend/app/ai/diagnostics.py:699-716 | Of two different targets of a request, the one mentioned first comes first |
| `DiagnosticServices.DiagnosticRun.ShouldCancel` | backend/app/ai/diagnostics.py:844-863 | Stops exactly if a cancel was recorded since the run began or the authorization is missing now, and remembers lost permission only when no cancel is recorded |
| `DiagnosticServices.DiagnosticRun.OnProgress` | backend/app/ai/diagnostics.py:820-842 | A report changes the record of its target only, is stored in the row and announced; an unknown target changes nothing |
| `DiagnosticServices.DiagnosticRun.Interact` | backend/app/ai/diagnostics.py:1050-1064 | A concurrent cancel at any point keeps the log numbered; the status changes, to cancelled, exactly if one is recorded |
| `DiagnosticServices.DiagnosticRun.Store` | backend/app/ai/diagnostics.py:915-939 | Every collected item becomes evidence, in order, with an event after it |
| `DiagnosticServices.DiagnosticRun.SaveFindings` | backend/app/ai/diagnostics.py:942-949 | The guard against foreign citations never raises; the report carries the findings and their greatest severity |
| `DiagnosticServices.Summarize` | backend/app/ai/diagnostics.py:951-973 | A target succeeds exactly when it has evidence and all of it succeeded; counts and final progress follow |
| `DiagnosticServices.DiagnosticRun.FinalCheck` | backend/app/ai/diagnostics.py:941-941 | After the last check the whole list of checks is truthful, and permission is marked lost exactly if one of them found it gone first |
| `DiagnosticServices.DiagnosticRun.Judge` | backend/app/ai/diagnostics.py:951-1002 | Counts, progress and verdict are written over whatever the row has become, and an event of the matching kind says so |
| `DiagnosticServices.DiagnosticRun.Conclude` | backend/app/ai/diagnostics.py:915-1019 | Evidence, last check, report and row of a run that got past collection |
| `DiagnosticServices.DiagnosticRun.Crash` | backend/app/ai/diagnostics.py:875-913 | A raising batch fails every target, keeps the completed probes of each, and leaves an insufficient warning report and a failed row with no successes |
| `DiagnosticRepository.Repository.CreateRun` | backend/app/ai/diagnostics.py:117-151 | A fresh row with an empty log; an existing id is a conflict |
| `DiagnosticRepository.Repository.UpdateRun` | backend/app/ai/diagnostics.py:159-165 | Overwrites exactly the named columns of the owner's row |
| `DiagnosticRepository.Repository.AppendEvent` | backend/app/ai/diagnostics.py:167-186 | The event gets the next number; the log stays numbered 1..n with n stored; other logs are untouched |
| `DiagnosticRepository.Repository.ListEvents` | backend/app/ai/diagnostics.py:188-196 | The first 200 events above a number, for the owner only |
| `DiagnosticRepository.Repository.AddEvidence` | backend/app/ai/diagnostics.py:198-213 | Appends to the run's evidence |
| `DiagnosticRepository.Repository.SaveReport` | backend/app/ai/diagnostics.py:224-238 | Replaces the run's report |
| `DiagnosticRepository.AfterIsSuffix` | backend/app/ai/diagnostics.py:188-196 | In a numbered log, the events above k are the log without its first k |
| `DiagnosticRepository.PollingLosesNothing` | backend/app/ai/diagnostics.py:188-196 | A client that polls a growing log from the last number seen always holds a gap-free beginning, and all of it after a page that was not full |
| `DiagnosticRepository.PollingCatchesUp` | backend/app/ai/diagnostics.py:188-196 | Once the log is still, 1 + n/200 polls hold all of it |
| `DiagnosticAnalyzer.Analyze` | backend/app/ai/diagnostic_analyzers.py:323-407 | The two-pass loop yields one finding at most an item, in order, judged with the latest processor count and log baseline of its asset; severity and the insufficient flag are exact |
| `DiagnosticAnalyzer.Worst` | backend/app/ai/diagnostic_analyzers.py:387-391 | The greatest severity of the findings, info for none |
| `DiagnosticAnalyzer.CitationsAlwaysHold` | backend/app/ai/diagnostics.py:942-949 | For every evidence list each finding cites a nonempty subset of its ids, so the guard in the service passes |
| `DiagnosticAnalyzer.GuardMeans` | backend/app/ai/diagnostics.py:943-949 | The guard passes exactly when every finding cites something and only ids of the given evidence |
| `DiagnosticAnalyzer.FindingCites` | backend/app/ai/diagnostic_analyzers.py:182-204 | A finding cites its own item first and at most one helper, only for load and logs |
| `DiagnosticAnalyzer.FailedMeans` | backend/app/ai/diagnostic_analyzers.py:342-351 | A failed item is a warning about itself |
| `DiagnosticAnalyzer.UsageMeans` | backend/app/ai/diagnostic_analyzers.py:131-171 | Disks and inodes are found from 85 percent, critical from 95; memory below 20 percent available, critical below 10 |
| `DiagnosticAnalyzer.LoadMeans` | backend/app/ai/diagnostic_analyzers.py:174-204 | Load is found above the number of processors, critical from twice that, and never without a known processor count; it cites both |
| `DiagnosticAnalyzer.ServiceMeans` | backend/app/ai/diagnostic_analyzers.py:207-275 | Failed services, missing ports and troubled containers, the latter critical when unhealthy or restarted three times |
| `DiagnosticAnalyzer.LogMeans` | backend/app/ai/diagnostic_analyzers.py:278-381 | Three error lines, and twice those of the baseline where one is compared with; critical from ten |
| `DiagnosticAnalyzer.OtherKinds` | backend/app/ai/diagnostic_analyzers.py:352-381 | Successful evidence of any other kind is never found |
| `DiagnosticAnalyzer.HelpersAre` | backend/app/ai/diagnostic_analyzers.py:325-339 | The helpers of an asset are its last successful processor count that is not zero and its last successful baseline log that is not blank |
| `DiagnosticAnalyzer.SecondCitation` | backend/app/ai/diagnostic_analyzers.py:286-317 | A second citation is successful evidence of the same asset from the same list: a known processor count, or a log baseline that is not blank |
| `GrafanaPanels.PanelQueries` | backend/app/ai/monitoring.py:1305-1365 | The work list with nested panels put in front builds queries from exactly the first eight matches of the recursive pre-order, and terminates |
| `GrafanaPanels.MatchesAre` | backend/app/ai/monitoring.py:1321-1347 | The matches of one panel, written out: in order, exactly the targets that are not hidden, ask the requested data source and have an expression, up to the first malformed one |
| `GrafanaPanels.AllMatchesAre` | backend/app/ai/monitoring.py:1313-1347 | A match comes from a panel in the list that is the requested one, or any if none is, and from nowhere else |
| `GrafanaPanels.PreOrderConcat` | backend/app/ai/monitoring.py:1313-1319 | Pre-order and size of the panel forest distribute over putting lists together |
| `GrafanaPanels.WorkListStep` | backend/app/ai/monitoring.py:1314-1320 | Replacing the first panel by its nested panels continues the pre-order and shrinks the forest |
| `GrafanaPanels.AddTargets` | backend/app/ai/monitoring.py:1334-1364 | The targets of one panel in order, until eight queries or a malformed target |
| `GrafanaPanels.LettersMatchPanels` | backend/app/ai/monitoring.py:1348-1364 | Query letters are distinct and are exactly the keys of the panel map |
| `GrafanaPanels.LettersInOrder` | backend/app/ai/monitoring.py:1348-1364 | Query k has the k-th letter, the expanded expression of match k and the requested data source, and the panel map says whose it is |
| `Selector.PassesDoNotInterfere` | backend/app/ai/monitoring.py:476-477 | Three whole-value replacements equal one character-by-character escape |
| `Selector.UnescapeEscapeLabel` | backend/app/ai/monitoring.py:476-477 | Reading an escaped value as a quoted string gives the value back |
| `Selector.PrintSelector` | backend/app/ai/monitoring.py:480-492 | Printed exactly for nonempty maps of valid names and values; reading it gives back exactly the cleaned map, in ascending key order; otherwise the error is that of the least bad key |
| `Selector.ReadJoined` | backend/app/ai/monitoring.py:490-492 | Reading the joined items gives the pairs back |
| `Selector.SelectorDeterminesLabels` | backend/app/ai/monitoring.py:480-492 | A text reads as one map only: maps that print the same selector are equal once cleaned |
| `Selector.SortKeys` | backend/app/ai/monitoring.py:485-485 | Every key once, in ascending order |
| `Selector.LessMeans` | backend/app/ai/monitoring.py:485-485 | The order of the keys is the order of their texts: at the first difference the smaller character or the end comes first |
| `Selector.ValidNameMeans` | backend/app/ai/monitoring.py:45-45 | Which names are accepted: ASCII letters, underscores and, not at the start, digits |
| `Selector.NameCharMeans` | backend/app/ai/monitoring.py:45-45 | The same for one character |
| `ProviderConfig.AdvertisedIsPicked` | backend/app/ai/provider_config.py:158-205 | On every table with the invariant the advertised default is exactly the row the runtime picks, and there is none exactly when the runtime fails |
| `ProviderConfig.AdvertisedMeans` | backend/app/ai/provider_config.py:196-205 | The advertised row is enabled with key and model, and is a default, or the one of least id, among those that are |
| `ProviderConfig.DisagreeWithoutInvariant` | backend/app/ai/provider_config.py:295-312 | Without the invariant they can differ: an enabled row without a key comes first |
| `ProviderConfig.ProviderConfigService.constructor` | backend/app/ai/provider_config.py:141-146 | The empty table satisfies the invariant |
| `ProviderConfig.ProviderConfigService.Save` | backend/app/ai/provider_config.py:232-282 | Refused exactly for an unknown provider, a malformed field or an incomplete enabled row, and then nothing changes; otherwise the row has the named fields, other defaults are cleared, and at most one default stays, with default implying enabled implying configured |
| `ProviderConfig.ProviderConfigService.InvariantMeans` | backend/app/ai/provider_config.py:256-275 | What every save keeps: a default is enabled, an enabled row has a key and a model, and there are no two defaults |
| `ProviderConfig.ProviderConfigService.Edit` | backend/app/ai/provider_config.py:232-275 | The request applied to the row field by field, absent fields kept and a default being enabled; which of the errors is raised |
| `ProviderConfig.SaveKeepsInvariant` | backend/app/ai/provider_config.py:265-275 | Clearing other defaults keeps the invariant |
| `ProviderConfig.ProviderConfigService.ClearKey` | backend/app/ai/provider_config.py:284-293 | Only that row changes: no key, disabled, no default |
| `ProviderConfig.ProviderConfigService.ConfiguredRow` | backend/app/ai/provider_config.py:295-312 | The named row, or an eligible default, or the eligible row of least id; an error exactly when that one is missing or not configured |
| `ProviderConfig.ProviderConfigService.PublicRows` | backend/app/ai/provider_config.py:158-205 | The rows, default first and then by id, without placeholders and each with its reason; the advertised default is the first available row |
| `ProviderConfig.ProviderConfigService.ShownMeans` | backend/app/ai/provider_config.py:158-195 | The listing shows every row that has something set and no other, with its columns and exactly its own reason |
| `ProviderConfig.FirstReadyIs` | backend/app/ai/provider_config.py:196-204 | The first usable listing shows the first usable row |

## Left out

- The autonomy package, SSH, HTTP, SMTP, Celery, embeddings and the vector query itself: the
  hits of a search are arbitrary records of the store.
- KnowledgeServices.KnowledgeService.Publish: compares with the rows as they are at that step.
  The snapshot query and the publication of a rebuild belong to one database transaction
  (no commit lies between lines 656 and 724 of knowledge.py). Under repeatable read only the
  locked read of the configuration row sees later commits; the comparison of manifests and
  the rows written would be those of the snapshot. That isolation level is not modelled.
- Load batches in the transition system are any part of at most 64 records, which includes
  the batches of 64 that the service loads.
- `Redeploy` in the transition system is a release that computes another fingerprint from the same
  stored settings; a missing configuration row is the default row.
- `capture_run`: its insert is the step `Create`; the checks on the captured run are not modelled.
- `prompt_citations`, listing and text validation of documents (lengths, control characters, scope syntax).
- KnowledgeServices.KnowledgeService.SaveConfig: takes the fingerprint of settings that
  passed validation; the validation of provider, URL, model, dimension and key is not modelled.
- KnowledgeServices.KnowledgeService.Reindex: nobody comes between its parts; for the parts
  called one by one anybody may.
- KnowledgeSearch.Search: the conversion of a limit that is not an integer is not modelled.
- AgentStorage.AgentStore.SaveConversation: each store method happens at one instant, so an
  entry does not expire between the read and the write of one method.
- AgentLoop.AgentRun.Run: time passes at the provider, the tools, the summarizer and each
  event sent to the client, not between two store calls in a row; other runs come then. The
  conversation is not deleted during a run: deletion takes no lock, so "a deleted
  conversation stays deleted" is false of the code.
- Context.SummaryFitsIff: the size of a request is the length of its texts; what the provider
  adds around them is not modelled.
- AgentLoop.AgentRun.SaveMetrics: of the telemetry only attempt, acceptance and failure
  counts and a token total are modelled.
- Titles, `reasoning_content`, `list_conversations`, the event stream to the client and the
  contents of the prompts.
- Context.AdmittedRequestsFit: the threshold ratio is a real number, not a binary floating-point one.
- DiagnosticServices.DiagnosticRun.Start: profile and parameter validation, credentials and
  target names are one authorization oracle; event payloads other than kind and status,
  retention and purging are not modelled. The SQL repository is not modelled, only the
  in-memory one, whose methods are atomic.
- DiagnosticAnalyzer.Analyze: titles, summaries and recommendations of findings are not modelled.
- GrafanaPanels.PanelQueries: the other fields that a query copies from its target, and the
  conversion of a panel id from text, are not modelled.
- Selector.PrintSelector: names that are not text are not modelled; the reader accepts the
  printed form, not all of the PromQL grammar.
- ProviderConfig.ProviderConfigService.Save: URL, JSON and boolean syntax is reduced to
  well-formed or malformed; a save is one transaction; encryption is not modelled.
- `_merge_fragment` of the provider adapter, `resolve_env`, route handlers and the frontend.
