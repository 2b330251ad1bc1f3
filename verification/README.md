# freegate in Dafny

freegate is a proxy between clients and language-model providers that speak different protocols. This
project models the parts of it whose correctness is not visible in any one function: the streaming and
history translators, the client-key cache and usage recorder, the registry of providers, and failover
and admission control. To verify it: `dafny verify dfyconfig.toml`.

A mutating part of the program appears twice. A function on values says what one step does to the
state; a method or a class with the program's own fields and loops is proved to do exactly that. The
theorems about whole runs are then lemmas about the functions.

| files | what they model |
|---|---|
| `ClaudeEvents`, `ClaudeBlocks`, `ClaudeStream`, `ClaudeStreamRuns`, `ClaudeStopReason`, `ClaudeHoldBack`, `ClaudeTallies`, `ClaudeRecovered`, `ClaudeStreamState`, `OrphanInvoke` | OpenAI chunks to Claude events: text, thinking and tool blocks, buffered arguments, waiting prose, the hold-back buffer for calls leaked into text, the deferred tail |
| `SseWriter` | cutting a byte stream into lines and feeding the translator |
| `OpenAIStream`, `StreamPipeline`, `StreamPipelineArgs` | the stream normaliser, and the normaliser and the translator together |
| `ChatHistory`, `EnsureIds`, `RequestStages`, `ClaudeHistory`, `PrepareClaude`, `RequestPipeline`, `RequestPairing`, `RequestExceptions`, `RequestConservation`, `RequestProse` | the request pipeline from an OpenAI history to a Claude message list |
| `ResponsesHistory`, `ResponsesDemux` | chat histories and Responses input items; parallel calls of a Responses stream |
| `VerifyCache`, `KeyVerification`, `UsageRecorder` | verification of client keys while administrators change them; usage counting |
| `Registry`, `RegistryStore` | transactions over providers, pools, builtins and combos |
| `Combo`, `KeyRotation`, `RateLimit` | failover over tiers, API-key rotation, the rate limiter |
| `Probe` | one-pass format detection on the text against detection on the parsed body |

JSON is modelled as datatypes, except in `Probe`, where the text matters. Text repair and sanitizing
(`SanitizeAssistantText`, `repairToolArgs`, `SanitizeToolArgs`, `sanitizeArgs`, `splitToolArgs`,
`parseToolArgs`, `couldBeInvokeOpener` and the regular expressions) are arbitrary functions: what is
proved holds whatever they do. Clocks, random ids, map iteration orders, database failures, concurrent
requests and the replies of upstreams are parameters of the steps.

## Model

| member | source | states |
|---|---|---|
| `ClaudeEvents.AcceptedTrace` | internal/translate/claude/stream.go:1078-1142 | a complete message has one message_start, first; message_delta and message_stop are its last two events and occur once; blocks open at 0, 1, 2, … and each is stopped exactly once |
| `ClaudeEvents.ProseBlocksAlone` | internal/translate/claude/stream.go:358-454 | no block starts beside an open text or thinking block, and beside an open tool block only another tool block starts |
| `ClaudeEvents.PrefixAlive` | internal/translate/claude/stream.go:151-258 | every prefix of a well-formed trace is well formed |
| `ClaudeBlocks.FramedWrite` | internal/translate/claude/stream.go:358-454 | writing text or thinking keeps the block ledger in step with the protocol monitor and adds exactly that fragment to the emitted prose |
| `ClaudeBlocks.FramedStopTools` | internal/translate/claude/stream.go:270-311 | stopping the open tool blocks emits each block's arguments once, in its own block, and leaves none open |
| `ClaudeBlocks.FramedWriteAll` | internal/translate/claude/stream.go:317-333 | replaying waiting fragments emits them all, in order |
| `ClaudeStreamRuns.TraceWellFormed` | internal/translate/claude/stream.go:129-258 | for every chunk sequence the trace obeys the protocol as far as it goes, and it is a complete message if and only if some chunk carried a finish reason |
| `ClaudeStreamRuns.ContentConserved` | internal/translate/claude/stream.go:270-333 | in a finished run the emitted prose is, in order, exactly what the handlers accepted; text is what the forwarded content cleans to, thinking what the reasoning cleans to; each call's fragments are joined, repaired and sent once in its block |
| `ClaudeStreamRuns.TailReports` | internal/translate/claude/stream.go:1078-1142 | the tail carries the last usage of any chunk, even one after the finish reason, and message_stop ends it |
| `ClaudeStopReason.StopReason` | internal/translate/claude/stream.go:1115-1142 | the stop reason of every finished stream: tool use if a call was recovered before the finish reason, or at the end of one that just stopped; otherwise what the finish reason maps to |
| `ClaudeTallies.WaitingCountsTwice` | internal/translate/claude/stream.go:1115-1142 | a finished stream without usage reports an estimate of all prose accepted and all arguments received in which the prose that waited behind tool blocks counts twice |
| `ClaudeTallies.ToolIdsDistinct` | internal/translate/claude/stream.go:690-704 | the ids of the tool blocks are the ids received, numbered by occurrence, and they are distinct if and only if no id received reads like a numbered occurrence of another that is received more often |
| `ClaudeRecovered.RecoveredComeFirst` | internal/translate/claude/stream.go:676-762 | in every stream the calls recovered from prose precede the deltas of the chunks in the tool ledger, under negative keys, and the deltas follow as they were received |
| `ClaudeStreamRuns.ChunksKeep` | internal/translate/claude/stream.go:151-258 | the invariant of every run: ledger, conservation, hold-back accounting, and agreement with what the chunks carry |
| `ClaudeStreamRuns.HoldAccounted` | internal/translate/claude/stream.go:461-509 | after every run the hold buffer is at most 32768 bytes and, until a call is recovered, forwarded prose followed by the buffer is all content received |
| `ClaudeStreamRuns.OpenerKept` | internal/translate/claude/stream.go:489-507 | a forming opener is kept whole if and only if it fits the trailing window or stands alone in a buffer within the limit |
| `ClaudeStreamRuns.OpenerCut` | internal/translate/claude/stream.go:498-506 | one character of prose ahead of a longer opener cuts the opener |
| `ClaudeHoldBack.RecoveredHoweverCut` | internal/translate/claude/stream.go:461-509 | for every cut of a text with a leaked call into nonempty deltas, that call is recovered and exactly the prose ahead of it is forwarded if and only if each delta fits the window: with prose ahead the held front of the block is at most 128 bytes, alone at most 32768 |
| `ClaudeHoldBack.OverrunLeaks` | internal/translate/claude/stream.go:498-506 | any delta that does not fit, the first or a later one, lets the front of the block out as prose |
| `ClaudeStreamRuns.FoundCall` | internal/translate/claude/stream.go:286-311 | whichever registered call is found to render into an open block is that block's own |
| `ClaudeStreamState.StreamState.HandleTextContent` | internal/translate/claude/stream.go:408-454 | a text fragment streams at once or waits behind open tool blocks |
| `ClaudeStreamState.StreamState.HandleReasoningContent` | internal/translate/claude/stream.go:358-406 | the same for reasoning |
| `ClaudeStreamState.StreamState.HoldTextContent` | internal/translate/claude/stream.go:461-509 | extraction to exhaustion, then the settled head leaves |
| `ClaudeStreamState.StreamState.FlushHold` | internal/translate/claude/stream.go:625-668 | draining the buffer, with and without extraction, mid-stream and at the end |
| `ClaudeStreamState.StreamState.HandleToolCalls` | internal/translate/claude/stream.go:676-762 | new ids open blocks, arguments go to their index's buffer |
| `ClaudeStreamState.StreamState.CloseOpenToolBlocks` | internal/translate/claude/stream.go:270-311 | every open tool block gets its final arguments and is stopped |
| `ClaudeStreamState.StreamState.FlushPendingContent` | internal/translate/claude/stream.go:317-333 | the waiting fragments are replayed |
| `ClaudeStreamState.StreamState.ProcessChunk` | internal/translate/claude/stream.go:151-258 | one chunk, in the order reasoning, content, tools, usage, finish |
| `ClaudeStreamState.StreamState.Finalize` | internal/translate/claude/stream.go:129-145 | the end of the stream, once |
| `OrphanInvoke.ExtractOrphanInvokes` | internal/translate/claude/orphan_invoke.go:62-101 | every complete invoke block left to right, the prose ahead of the first and what follows the last |
| `OrphanInvoke.ScanExhausts` | internal/translate/claude/orphan_invoke.go:73-101 | nothing complete is left behind |
| `OrphanInvoke.ExtractOnce` | internal/translate/claude/stream.go:467-483 | extracting from the remainder finds nothing, so the caller's loop ends |
| `SseWriter.SplitSSE` | internal/translate/internal/helpers/helpers.go:10-20 | the complete chunks and the unfinished remainder |
| `SseWriter.SplitAppend` | internal/translate/internal/helpers/helpers.go:10-20 | splitting a + b is splitting a, then splitting its remainder followed by b |
| `SseWriter.BoundariesDoNotMatter` | internal/translate/response_writer.go:203-245 | two ways of cutting the same bytes into writes give the same events, passed-through lines and state, before and after closing |
| `SseWriter.ResponseWriter.Write` | internal/translate/response_writer.go:203-245 | a write handles each complete line up to the end marker and keeps the remainder |
| `SseWriter.ResponseWriter.Close` | internal/translate/response_writer.go:114-139 | closing finalizes a stream that is not closed yet |
| `OpenAIStream.BufferToolArgs` | internal/infrastructure/proxy/normalize_openai.go:364-393 | argument fragments move to the buffer of their index and out of the delta |
| `OpenAIStream.NormalizeStream` | internal/infrastructure/proxy/normalize_openai.go:112-308 | the normalised lines, with repaired arguments ahead of the finish chunk and a terminal chunk supplied when none came |
| `StreamPipeline.ClientGetsOneMessage` | internal/infrastructure/proxy/normalize_openai.go:112-308 | through both stages the client's trace is never broken and is one complete message if and only if a usable finish reason came, or a chunk came and none had finish text |
| `StreamPipeline.NullFinishNeverEnds` | internal/infrastructure/proxy/normalize_openai.go:112-308 | a finish reason spelled "null" leaves the message without an end |
| `StreamPipelineArgs.ArgumentsSurvive` | internal/infrastructure/proxy/normalize_openai.go:364-393 | the translator gets a block for every index named with an id; one named before the first finish text gets all its fragments up to there joined and repaired once, one named later gets none |
| `StreamPipelineArgs.LateCallLosesArguments` | internal/infrastructure/proxy/normalize_openai.go:256-308 | a stream whose finish chunk is the first to name its call delivers the call without its arguments |
| `StreamPipelineArgs.ClientGetsArguments` | internal/infrastructure/proxy/normalize_openai.go:256-308 | behind the blocks of recovered calls the client gets one tool block for every index named with an id and in it, once, the upstream's fragments joined and repaired by both stages |
| `EnsureIds.EnsureId` | internal/translate/internal/prepost/ensure_ids.go:158-173 | the result matches the pattern, and a valid id is kept |
| `EnsureIds.FinalIdsDistinct` | internal/translate/internal/prepost/ensure_ids.go:63-71 | numbered ids are pairwise distinct if and only if no sanitized id reads like a numbered occurrence of another that occurs |
| `EnsureIds.HistoryNumbered` | internal/translate/internal/prepost/ensure_ids.go:39-146 | every call, in order, gets the next number of its sanitized id, and every result the next of its own |
| `EnsureIds.ResultsFollowCalls` | internal/translate/internal/prepost/ensure_ids.go:78-96 | the k-th result for a sanitized id gets the final id of the k-th call with it |
| `EnsureIds.CallIdsDistinct` | internal/translate/internal/prepost/ensure_ids.go:39-146 | all call ids of a repaired history are distinct if and only if no sanitized id clashes |
| `EnsureIds.RepairedIdsValid` | internal/translate/internal/prepost/ensure_ids.go:39-146 | every id of a repaired history matches the pattern |
| `EnsureIds.IdRepair.NameCall` | internal/translate/internal/prepost/ensure_ids.go:62-73 | the counting maps give a call the next number of its id |
| `EnsureIds.IdRepair.NameResult` | internal/translate/internal/prepost/ensure_ids.go:80-96 | the counting maps give a result the id of the call with its number |
| `EnsureIds.EnsureToolCallIds` | internal/translate/internal/prepost/ensure_ids.go:39-146 | the whole in-place rewrite |
| `RequestStages.SanitizeToolHistory` | internal/translate/internal/prepost/sanitize_history.go:23-134 | leading orphans go and the last assistant loses calls nothing responds to |
| `RequestStages.FixMissingToolResponses` | internal/translate/internal/prepost/fix_missing.go:28-105 | the inserted messages, found by the same scan |
| `RequestStages.FixMissingCovers` | internal/translate/internal/prepost/fix_missing.go:43-105 | afterwards every call of every assistant message is answered before the next turn |
| `RequestStages.FixMissingOnlyInserts` | internal/translate/internal/prepost/fix_missing.go:43-105 | apart from synthetic answers the history is unchanged |
| `ClaudeHistory.BuildClaudeMessages` | internal/translate/claude/fromopenai.go:274-368 | the walker's message list or its error |
| `PrepareClaude.MergeConsecutiveSameRole` | internal/translate/internal/prepost/prepare_claude.go:201-270 | adjacent turns of one role are merged, tool results first |
| `PrepareClaude.DropEmptyMessages` | internal/translate/internal/prepost/prepare_claude.go:87-107 | messages without content go, except a final assistant |
| `RequestPairing.BuildFollows` | internal/translate/claude/fromopenai.go:274-368 | the builder's list asks for and answers exactly what the history does, run by run, and keeps results apart from prose |
| `RequestPairing.PrepareSettles` | internal/translate/internal/prepost/prepare_claude.go:39-47 | for every list, stripping, dropping, ordering and merging leave each ask and answer settled exactly as it was |
| `RequestPairing.TurnsAlternate` | internal/translate/internal/prepost/prepare_claude.go:201-270 | for every history that translates, no two adjacent messages have the same role |
| `RequestPairing.PairedExactly` | internal/translate/request.go:53-105 | for every history that translates, each assistant message with tool uses is followed at once by a user message that starts with results for all of them, if and only if in the repaired history the ids each run of assistant messages asks for are answered before the next run |
| `RequestPairing.TranslationPairs` | internal/translate/request.go:53-105 | in particular this holds for every history of plain messages |
| `RequestExceptions.SplitArgumentsUnpair` | internal/translate/claude/fromopenai.go:437-521 | one call and its answer stay paired if and only if the call's arguments are not split |
| `RequestExceptions.EmbeddedUseUnpairs` | internal/translate/claude/fromopenai.go:449-460 | a tool use carried in the content and not in the calls is never answered |
| `RequestExceptions.EmbeddedResultUnpairs` | internal/translate/internal/prepost/fix_missing.go:118-137 | a result inside a tool message's content counts as an answer but is not translated, so its call stays without one |
| `RequestConservation.TranslationCarries` | internal/translate/request.go:53-105 | every tool use, every tool result and every piece of user prose of the repaired history is in the body exactly once and in order |
| `RequestConservation.PrepareCarries` | internal/translate/internal/prepost/prepare_claude.go:39-47 | the finishing steps lose and reorder none of these, nor prose of the assistant in messages that need no reordering |
| `RequestProse.AssistantProseCarried` | internal/translate/request.go:53-105 | for plain histories all prose of the assistant is in the body exactly once and in order, none of it behind a tool use of its message |
| `ResponsesHistory.RoundTripExact` | internal/translate/responses/request.go:53-266 | a canonical history comes back unchanged if and only if no text turn carries encrypted reasoning alone and no assistant turn with calls or reasoning stands right behind a call turn |
| `ResponsesHistory.RepliedHistoriesReturn` | internal/translate/responses/request.go:410-543 | in particular when every call turn is followed by a tool reply |
| `ResponsesHistory.FromOpenAI` | internal/translate/responses/request.go:410-543 | the loop that turns messages into instructions and input items |
| `ResponsesHistory.ToChat` | internal/translate/responses/request.go:53-266 | the loop that turns input items into messages |
| `ResponsesHistory.Clamp` | internal/translate/responses/request.go:625-630 | an id is cut to 64 and kept when it is not longer |
| `ResponsesDemux.DeltasStayApart` | internal/translate/responses/stream.go:467-517 | for every interleaving of events of calls with distinct keys, calls get indexes 0, 1, 2, … by first sight and under each index go exactly its own call's texts, in order |
| `ResponsesDemux.BindingsStay` | internal/translate/responses/stream.go:607-664 | one lookup never rebinds an item or an output position, and exactly when it rebinds a call |
| `ResponsesDemux.BindingsPersist` | internal/translate/responses/stream.go:607-664 | over any events at all an item or output position once bound keeps its index for the rest of the run |
| `ResponsesDemux.CallRebound` | internal/translate/responses/stream.go:630-638 | a run in which a call is rebound |
| `ResponsesDemux.FinishedOnce` | internal/translate/responses/stream.go:518-577 | one finish chunk, at the first end of the response, completed or failed; a completion announces tool calls exactly when a call event came before it |
| `ResponsesDemux.ToolIndex.RespToolIndex` | internal/translate/responses/stream.go:612-664 | the lookup by item, output position and call, and what it binds |
| `ResponsesDemux.ToolIndex.OnEvent` | internal/translate/responses/stream.go:450-577 | the chunks of one event: prose, calls, arguments and both kinds of end |
| `VerifyCache.ClientKeyVerifyCache.Get` | internal/infrastructure/registry/apikey_cache.go:34-56 | a live verdict, and the removal of an expired one |
| `VerifyCache.ClientKeyVerifyCache.Set` | internal/infrastructure/registry/apikey_cache.go:58-92 | nothing is stored under an old generation; a full cache gives up an expired entry if it has one; the size stays bounded |
| `VerifyCache.ClientKeyVerifyCache.Invalidate` | internal/infrastructure/registry/apikey_cache.go:106-114 | one hash is forgotten and the generation moves |
| `VerifyCache.ClientKeyVerifyCache.InvalidateAll` | internal/infrastructure/registry/apikey_cache.go:116-124 | all is forgotten and the generation moves |
| `KeyVerification.StaleOnlyWhileUnsettled` | internal/infrastructure/registry/apikey_cache.go:34-124 | over every interleaving, a cached verdict, or one in flight under the current generation, differs from the database only while a committed operation on its hash has not yet invalidated |
| `KeyVerification.AnswersWereTrue` | internal/infrastructure/registry/apikeys.go:168-201 | every answer was the database's at some moment of the verify, unless such an operation was outstanding when it began |
| `KeyVerification.RefusedAfterInvalidation` | internal/infrastructure/registry/apikeys.go:129-201 | once an operation on a hash has invalidated, and while the database refuses the hash, no verify that begins answers yes, whatever other operations are outstanding |
| `KeyVerification.RevokedStaysRevoked` | internal/infrastructure/registry/apikeys.go:129-201 | from the moment a delete or disable returns, a verify that begins while no later operation has made the key valid again never answers yes |
| `UsageRecorder.UsageConserved` | internal/infrastructure/registry/apikeys.go:242-339 | over every interleaving the calls that returned nil, and no others, are counted in a row, pending, queued, or lost to a deleted row, an unknown hash or a failed batch; nothing is queued or pending once closed |
| `UsageRecorder.CreditRows` | internal/infrastructure/registry/apikeys.go:317-339 | the update loop adds each pending count to its row, in any order |
| `UsageRecorder.Recorder.Drain` | internal/infrastructure/registry/apikeys.go:276-315 | after closing, the loop empties the queue and flushes |
| `Registry.RunKeepsIntegrity` | internal/infrastructure/registry/providers.go:11-46 | over every run of transactions pool mode pins an existing pool and nothing else pins one, every combo keeps a tier, every custom tier names an existing provider, names stay unique |
| `Registry.UpdateProviderKeeps` | internal/infrastructure/registry/providers.go:98-153 | an update and its rename cascade keep integrity |
| `Registry.DeleteProviderKeeps` | internal/infrastructure/registry/providers.go:155-196 | a deletion and its cascade keep integrity |
| `Registry.UnpinKeeps` | internal/infrastructure/registry/pools.go:107-140 | unpinning a pool, with or without deleting it, keeps integrity |
| `Registry.SurvivorsKeepOrder` | internal/infrastructure/registry/providers.go:170-194 | the tiers that survive a deletion are exactly those of other providers, in their old order |
| `Registry.RenameBack` | internal/infrastructure/registry/providers.go:128-146 | renaming a provider and back restores every combo |
| `RegistryStore.Store.Update` | internal/infrastructure/registry/providers.go:98-153 | the update transaction, its errors and its cascade |
| `RegistryStore.Store.Delete` | internal/infrastructure/registry/providers.go:155-196 | the delete transaction and its cascade |
| `RegistryStore.Store.Create` | internal/infrastructure/registry/providers.go:11-46 | the create transaction and its errors |
| `RegistryStore.Store.RemovePoolRow` | internal/infrastructure/registry/pools.go:107-123 | deleting a pool resets every pin on it |
| `RegistryStore.Store.SetBuiltinRelay` | internal/infrastructure/registry/pools.go:175-200 | pool mode needs an existing pool, other modes clear the pin |
| `RegistryStore.Store.Save` | internal/infrastructure/registry/combos.go:19-39 | a new combo is trimmed, validated and checked against the providers |
| `RegistryStore.Store.Replace` | internal/infrastructure/registry/combos.go:41-65 | the same for an existing combo |
| `RegistryStore.CheckTiersExist` | internal/infrastructure/registry/providers.go:215-233 | the error of the first tier that cannot be used |
| `Combo.RequestAnswers` | internal/infrastructure/upstream/combo_upstream.go:100-210 | whatever the upstreams and other requests do, a request over n tiers answers from inside the loop, makes at most 2n calls, and fails for an error only at the last tier |
| `Combo.WalkShape` | internal/infrastructure/upstream/combo_upstream.go:106-122 | the last tier is never skipped and only the last visit ends the request |
| `Combo.FirstUsableServes` | internal/infrastructure/upstream/combo_upstream.go:161-208 | the answer is the first non-retryable response of an attempted tier, else what the last tier gives |
| `Combo.ResponsesAccounted` | internal/infrastructure/upstream/combo_upstream.go:195-208 | every response obtained is closed exactly once or returned |
| `Combo.CooldownsLeft` | internal/infrastructure/upstream/combo_upstream.go:71-84 | a request that is alone leaves each tier it reached cooled down exactly if it was skipped for that or failed for a reason other than the client, and every other tier as it was |
| `Combo.VisitCools` | internal/infrastructure/upstream/combo_upstream.go:71-84 | whatever other requests do, before a visit or during its upstream call, the visit touches the cooldown of its own tier only: set for a failure or a discarded response, cleared for a response used, left alone for a tier that is skipped, not prepared or abandoned by its client |
| `Combo.GoneClientMayStillCool` | internal/infrastructure/upstream/combo_upstream.go:172-200 | exactly when a tier is cooled down although the client is gone |
| `Combo.SkippedForAnother` | internal/infrastructure/upstream/combo_upstream.go:109-122 | without concurrent requests a tier is skipped only for a later tier that was fresh in the cooldowns it saw, and that tier is then processed unless the request ends at one in between |
| `Combo.ComboUpstream.ChatCompletion` | internal/infrastructure/upstream/combo_upstream.go:100-210 | the loop's answer, calls, closed responses and cooldowns |
| `Combo.ComboUpstream.InCooldown` | internal/infrastructure/upstream/combo_upstream.go:49-59 | the cooldown test, which forgets what has run out |
| `Combo.ComboUpstream.HasFreshTierFrom` | internal/infrastructure/upstream/combo_upstream.go:62-69 | whether any later tier is fresh |
| `KeyRotation.PicksFreeExactly` | internal/infrastructure/upstream/client.go:386-405 | whatever the cooldowns, a key that is not cooled down is picked whenever there is one, if and only if the counter does not wrap within n picks, is at its last value, or 2^64 mod n is at most 1 |
| `KeyRotation.WrapMissesFreeKey` | internal/infrastructure/upstream/client.go:393-404 | two ticks before the wrap of the 64-bit counter the only free key of six is missed |
| `KeyRotation.EachKeyOnce` | internal/infrastructure/upstream/client.go:386-405 | n picks with no cooldown use each of n keys once, if and only if the counter does not wrap on the way or n divides 2^64 |
| `KeyRotation.OneAttemptPerKey` | internal/infrastructure/upstream/client.go:207-274 | a request always answered 429 makes one attempt per key |
| `KeyRotation.RequestTriesFreeKeysFirst` | internal/infrastructure/upstream/client.go:207-274 | whatever the cooldowns, its first attempts use the keys not cooled down, once each, under exactly the condition for picking a free key |
| `KeyRotation.HttpClient.IsLimited` | internal/infrastructure/upstream/client.go:80-102 | the cooldown test, which forgets what has run out |
| `KeyRotation.HttpClient.Current` | internal/infrastructure/upstream/client.go:386-405 | the key picked and the counter afterwards |
| `KeyRotation.HttpClient.Do` | internal/infrastructure/upstream/client.go:207-274 | the keys tried and the reply returned |
| `RateLimit.RateBound` | internal/delivery/middleware/middleware.go:322-356 | in any minute of any run at most `limit` requests of one address are admitted, unless capacity evicts it |
| `RateLimit.LimitReached` | internal/delivery/middleware/middleware.go:340-355 | inside a minute requests are admitted until the limit is used up |
| `RateLimit.OnlyOwnRequestsMatter` | internal/delivery/middleware/middleware.go:322-356 | unless capacity evicts it, an address is judged as if it were alone and nothing were ever cleaned up |
| `RateLimit.CleanupUnobservable` | internal/delivery/middleware/middleware.go:283-295 | leaving the cleanup out changes no decision |
| `RateLimit.RateLimiter.Allow` | internal/delivery/middleware/middleware.go:322-356 | the decision and the shard afterwards |
| `RateLimit.RateLimiter.CleanShard` | internal/delivery/middleware/middleware.go:283-295 | idle visitors of a shard go |
| `Probe.ProbeAgrees` | internal/translate/detect.go:164-215 | for every reader and every body with exact keys, a string model or none, and markers written without escapes, the probe gives the format of detection and the model of extraction |
| `Probe.FastRejectSound` | internal/translate/detect.go:205-211 | a body with a Claude content block, however deep, whose markers are written plainly shows one of them in its text |
| `Probe.RawArrayExact` | internal/translate/detect.go:139-148 | the raw test tells arrays with elements from all other values |
| `Probe.EscapedMarkersMissed` | internal/translate/detect.go:183-215 | whatever the markers, the probe disagrees with detection exactly on Claude bodies told by their blocks alone whose text shows no marker |
| `Probe.EscapedMarkerExample` | internal/translate/detect.go:205-211 | a Claude body with an escaped marker that the probe takes for another format |
| `Probe.BadModel` | internal/translate/detect.go:164-171 | with a model that is no string the probe agrees exactly when detection says OpenAI |

## Where the code and its documentation differ

The model follows the code.

- internal/translate/claude/stream.go:456-460 says a split marker always lands inside the retained window. An opener longer than 128 bytes with settled prose ahead of it is cut (`OpenerKept`, `OpenerCut`).
- The normaliser takes the string "null" for a finish reason and the translator does not, so such a stream never gets its message_stop (`NullFinishNeverEnds`).
- Prose that waits behind a tool block is counted twice in the estimated usage (`WaitingCountsTwice`).
- An index first named in the finish chunk loses its arguments (`ArgumentsSurvive`, `LateCallLosesArguments`).
- `FixMissingToolResponses` says it looks at all later messages; it stops at the first user or other message, which is what the pairing needs.
- Pairing fails for calls whose arguments split into several objects, for tool uses in content parts and for results inside tool messages (`SplitArgumentsUnpair`, `EmbeddedUseUnpairs`, `EmbeddedResultUnpairs`); `PairedExactly` says when it holds.
- In `EnsureToolCallIds` the map from ids to final ids never changes an outcome: numbering results on their own gives the same ids (`NameResult`).
- A call id can be rebound when an event names a known output position under an unknown item (`BindingsStay`, `CallRebound`).
- A reasoning item that follows an open call group is attached to that group, not to the turn it belongs to (`RoundTripExact`).
- A tier that returns neither a response nor an error is cooled down even if the client is gone (`GoneClientMayStillCool`).
- `ProbeBody` says its semantics match `Detect` exactly; escaped markers and models that are no strings are exceptions (`EscapedMarkersMissed`, `BadModel`).

## Left out

- KeyVerification.StaleOnlyWhileUnsettled: the generation is unbounded, so a query that 2^64 invalidations overtake is not modelled; the 30-second expiry only ever removes entries.
- KeyRotation.HttpClient.Do: the second try without a relay and errors in building a request are not modelled.
- KeyRotation.RequestTriesFreeKeysFirst: for one thread, no relay, and a clock that stands still during the request.
- OpenAIStream.NormalizeStream: cancellation, write errors and read errors are not modelled; tool arguments given as an inline object, which the normaliser removes unread, count as none.
- StreamPipelineArgs.ArgumentsSurvive: for orders that list every index once.
- StreamPipelineArgs.ClientGetsArguments: a stream from whose text a call is recovered names no negative index, as those are the keys of recovered calls.
- RequestProse.AssistantProseCarried: for plain histories; what becomes of prose around a tool use embedded in content parts is not stated.
- ClaudeTallies.ToolIdsDistinct: streams without recovered calls, whose ids are random.
- UsageRecorder.UsageConserved: counts only; the time of last use is not modelled, nor is the error `Close` reports.
- Probe.ProbeAgrees: the JSON parser itself is not modelled; a body is given with its syntax tree, and keys that differ from a field name only in case are excluded.
- Combo.CooldownsLeft: for a request that is alone; with others in between only its own steps can be told (`VisitCools`).
- Combo.ComboUpstream.ChatCompletion: body rewriting and format translation for a tier are one yes-or-no parameter, and a response that comes together with an error is not modelled.
- ClaudeStreamState.StreamState.ProcessChunk: the block counters and flags of the original struct are one value field of the class, and the events emitted are a trace kept in it.
- The registry's secrets, masking, defaults and listing order; field validation is an arbitrary predicate.
- TLS shaping, client identity headers, relays and provider-specific upstreams.
- OpenAI to Responses and to Gemini streaming, images, tool schemas, system prompts, scalar parameters and usage arithmetic: copying of fields that would only add easy members.
- JSON repair and the regular-expression sanitizers, which are heuristics.
- HTTP handlers, admin endpoints, the user interface, configuration and metrics.
- The ring buffer, refresher backoff, auth throttle and model cache: small and independent of the rest.
