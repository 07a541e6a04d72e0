# Verified model of the companion runtime

A Dafny model of the protocols and algorithms of the companion runtime, with machine-checked proofs. It covers

- voice turns: a response task, a barge-in finisher, cancellation and an event ledger that may refuse events all work on one turn record (`Turns`, `Playback`, `VoiceTurn` with `VoiceTurnSafety` and `VoiceTurnResults`, `HeardText` with `HeardRuns` and `HeardAligned`, `Conversation`), and text turns handled one at a time (`TextTurns`);
- the fail-closed event bus (`EventBuses`);
- managed computer actions with confirmation, expiry, durable intent and undo (`Actions` with `ActionSafety`, `ActionResults`, `ActionProgress`, `ActionFailures` and `ActionUndo`), and the hash-chained audit log with its redaction (`Redaction`, `AuditChain`);
- the memory ledger: tables and temporal fact versions (`MemoryTables`), the re-entrant lock and the one transaction of a rebuild (`MemoryLock`), what a failed upsert leaves behind (`MemoryFailures`), facts stored live against facts rebuilt (`Replay`), the rebuild as a plan of statements under the lock (`Rebuild`), the extractor and the segmenter (`FactSpans`, `Episodes`), and the paged desktop views (`HistoryPages`);
- incremental text: sanitized speech (`Speech`), cutting and aligning text for synthesis (`TtsText`) and the streamed timeline (`TtsStream`) as the phrases playback receives (`StreamedPhrases`);
- the sliding-window policy (`PolicyGates`, `PolicyWindows`) and voice activity detection (`Vad`).

`Std` and `Text` hold shared datatypes and sequence facts. The objects whose fields the source updates are classes whose methods are proved against functions on their contents; the theorems are about those functions. Where several tasks share state, a step is the code between two suspension points, and what a suspended operation answers (accepted, refused, failed, timed out, cancelled, any value) is a parameter of the step, so that a run ranges over every interleaving and every outcome. `dafny verify dfyconfig.toml` checks the project.

Conventions: times are integers or reals in one order; JSON text, SHA-256, regex engines, word segmentation and network transport are parameters, with the assumption a lemma needs in its `requires`. The hash is injective and never the empty string. Searching a stored JSON list for a quoted id is membership. A list column of the database is a sequence in insertion order, and a query without an order returns that order. Lemmas are proved without Dafny's automatic induction.

Properties that turned out false of the code are stated with their exact condition: `Conversation.TotalsExactIffLimitNonzero`, `ActionFailures.FailedRequestStopsIff`, `MemoryFailures.UpsertFailureIsInvisibleIff`, `MemoryTables.UpsertFitsIff`, `Replay.ReplayEqualsLiveIff`, `Replay.RebuildAfterForgetIff`, `HistoryPages.BatchesAgreeIff`, `HistoryPages.PagesAddUpIff`, `PolicyGates.OverrunsIff` with `PolicyWindows.BudgetWindowIff` and `PolicyWindows.CooldownKeptIff`, `Vad.PreRollNeeded`, `Turns.ReactivationNeedsReuse`. Inputs that fail are shown by `Replay.InterruptedTurnDiffers`, `Replay.ForgottenChangeReopens`, `HistoryPages.LateEventRepeats`, `HistoryPages.TiedTurnIsLost`, `MemoryFailures.FailedUpsertLeaks` and `MemoryTables.BackdatedFactOverlaps`.

Where code and documentation disagree the model follows the code: an interruption is accepted from STARTED and ASR_PROCESSING although the transition table has no such edge (`Turns.TurnManager.InterruptTurn`); a short run of turns before a time gap is dropped by the segmenter, not merged with the next as its comment says (`Episodes.ShortRunIsLost`); the branch of the finisher that reports an invalid terminal state cannot be reached (`VoiceTurnResults.WakesInterrupted`).

## Model

| member | source | states |
|---|---|---|
| Turns.TurnManager.CreateTurn | companion/protocols/turn.py:173-195 | a new turn becomes current, and a still active current turn becomes interrupted, nothing else changes |
| Turns.TurnManager.Transition | companion/protocols/turn.py:197-218 | succeeds exactly for a known turn and an allowed edge, and stamps the matching time |
| Turns.TurnManager.InterruptTurn | companion/protocols/turn.py:241-251 | succeeds exactly for an active turn, whatever its state |
| Turns.TurnManager.FailTurn | companion/protocols/turn.py:253-270 | succeeds for active turns and for the inactive states the two flags open |
| Turns.ReactivationNeedsReuse | companion/protocols/turn.py:118-151 | no operation makes an inactive turn active again, except a creation that reuses its identifier |
| Turns.AtMostOneActive | companion/protocols/turn.py:173-195 | after every run at most one turn is active, and it is the current one |
| Playback.AudioConfirmationProtocol.RecordSynthesis | companion/protocols/audio.py:81-111 | adds the record and its alignment to that turn only |
| Playback.AudioConfirmationProtocol.ConfirmPlayed | companion/protocols/audio.py:113-134 | updates the first record with the index, none when there is none, and no other turn |
| Playback.StableSortSpec | companion/protocols/audio.py:136-158 | the sorting used for records and segments is ordered, stable and loses nothing |
| Playback.TextNeedsPlayback | companion/protocols/audio.py:136-158 | heard text that is not empty implies confirmed audio |
| Playback.HeardIsPrefix | companion/protocols/audio.py:136-158 | the heard text of an aligned turn is a prefix of the aligned text, and all of it once playback reached the last end |
| Playback.ConfirmExtends | companion/protocols/audio.py:113-158 | confirming more playback only extends the heard text |
| Playback.ConfirmHitsNewest | companion/services/voice_pipeline.py:1151-1156 | a confirmation with a fresh index reaches the record just added and only it |
| Playback.PhrasesNeverCollide | companion/services/voice_pipeline.py:1063-1086 | over all phrases of a turn rebased indices stay unique and chunk numbers increase from phrase to phrase |
| Playback.PhrasesShareOneTimeline | companion/services/voice_pipeline.py:1063-1086 | rebased start times of gapless phrases form one gapless timeline |
| HeardText.PhraseTimeline | companion/services/voice_pipeline.py:1063-1086 | the timeline of a turn grows, with each phrase, by exactly the timeline its provider numbered and timed inside the phrase, rebased |
| HeardText.PhrasesAlignTurn | companion/services/voice_pipeline.py:1063-1086 | phrases that are aligned in their own numbers and times make an aligned turn, at every chunk of every phrase |
| HeardText.HeardOnlyGrows | companion/protocols/audio.py:113-158 | over a whole spoken turn the heard text only grows, from the end of any phrase through every chunk of the next to the end of the turn |
| HeardRuns.MoveHears | companion/services/voice_pipeline.py:1040-1190 | no move of the response task or the finisher takes back anything heard, when chunks arrive in order |
| HeardRuns.HeardGrowsInRun | companion/services/voice_pipeline.py:1040-1190 | along every run of the pipeline what was heard at any moment is a beginning of what is heard at every later one, when the chunks of the turn arrive in order |
| HeardRuns.PhraseArrivesInOrder | companion/services/voice_pipeline.py:1063-1086 | the next chunk of a phrase that is aligned in its own numbers and times arrives in order |
| HeardAligned.MoveSpeaks | companion/services/voice_pipeline.py:1040-1190 | a move of a turn whose phrases are, or were begun as, aligned ones has its chunks arrive in order, and leaves the audio of exactly the chunks received so far |
| HeardAligned.RunSpeaks | companion/services/voice_pipeline.py:1040-1190 | in every run whose phrases are aligned every chunk of the turn arrives in order |
| HeardAligned.AlignedRunOnlyGrows | companion/services/voice_pipeline.py:1040-1190 | along every run whose phrases are aligned in their own numbers and times, or were begun as such, what was heard at any moment is a beginning of what is heard at every later one |
| VoiceTurnSafety.MoveKeeps | companion/services/voice_pipeline.py:448-803 | every move of either task keeps the turn invariant: at most one task owns the terminal event, and ledger and history are as far as that task |
| VoiceTurnResults.OneTerminal | companion/services/voice_pipeline.py:1275-1456 | in every interleaving a turn gets at most one terminal event, and exactly one once both tasks are done if and only if the fallback failure event was not refused |
| VoiceTurnResults.HistoryAgrees | companion/services/voice_pipeline.py:1245-1273 | each history entry repeats the one completed event of its turn, a failed turn has none, no turn is committed twice, and a finished completed turn has its entry |
| VoiceTurnResults.OneActiveTurn | companion/services/voice_pipeline.py:428-446 | at any time at most one turn is active, and it is the current one |
| VoiceTurnResults.OnlyFinisherCompletesInterrupted | companion/services/voice_pipeline.py:1394-1443 | the response task never completes an interrupted turn |
| VoiceTurnResults.WakesInterrupted | companion/services/voice_pipeline.py:1383-1443 | when the finisher wakes its turn is always still interrupted |
| VoiceTurnResults.CompletionClaimsHeard | companion/services/voice_pipeline.py:755-795 | a move that completes a spoken turn claims exactly the text heard by then, and that is not empty |
| VoiceTurnResults.ClaimIsStable | companion/services/voice_pipeline.py:755-795 | the claimed text does not change while the turn stays completed |
| VoiceTurnResults.HistoryIsWhatWasHeard | companion/core/orchestrator.py:548-591 | in every run the text of each entry of a spoken or interrupted turn is what playback had confirmed when the turn became completed |
| TextTurns.Orchestrator.ProcessUserInput | companion/core/orchestrator.py:311-473 | one text turn: the events, the history window and the answer for every outcome of its publishes, of the generation and of a cancellation during the commit |
| TextTurns.OneTerminalIff | companion/core/orchestrator.py:311-494 | a text turn has at most one terminal event, and exactly one if and only if its start was kept and it completed or its failed event was taken |
| TextTurns.HistoryIsNewestCompleted | companion/core/orchestrator.py:458-473 | over every run the history is the longest stretch of the newest completed events of the ledger that keeps the limits on turns and tokens, with their texts |
| TextTurns.AnsweredMeansCompleted | companion/core/orchestrator.py:425-473 | an answer is returned only for a turn whose completion was kept and whose commit was not cancelled, with the same text |
| Conversation.ConversationHistory.AddTurn | companion/conversation.py:38-42 | the window and the running total after one addition |
| Conversation.ConversationHistory.Trim | companion/conversation.py:75-86 | the trimming loop leaves the trimmed window and total |
| Conversation.WindowIsLongestSuffix | companion/conversation.py:75-90 | with a positive turn limit the window is the longest suffix of everything added that respects both limits, and the total is exact |
| Conversation.TotalsExactIffLimitNonzero | companion/conversation.py:75-86 | the running total is exact for all histories if and only if the turn limit is not zero |
| EventBuses.EventBus.Subscribe | companion/core/event_bus.py:99-103 | adds one subscription unless the bus is shut down |
| EventBuses.EventBus.QuarantineHandler | companion/core/event_bus.py:215-220 | removes one occurrence of the handler from each of its two lists |
| EventBuses.EventBus.Record | companion/core/event_bus.py:139-143 | the bounded log keeps the newest events |
| EventBuses.LogIsNewest | companion/core/event_bus.py:128-143 | in every run the replay log is the last part of the sequence of persisted events |
| EventBuses.ServedBeforeNext | companion/core/event_bus.py:128-180 | between two persisted events exactly the calls of the handlers subscribed at the first one end or are given up |
| EventBuses.ServedOnce | companion/core/event_bus.py:151-180 | no call is served twice |
| EventBuses.ServedWhenIdle | companion/core/event_bus.py:128-180 | whenever nobody holds the lock the last event has been served completely |
| EventBuses.ShutdownIsFinal | companion/core/event_bus.py:259-273 | after a shutdown commits nothing is persisted or delivered |
| ActionSafety.StepKeeps | companion/services/action_service.py:164-523 | every step of every task keeps the invariant and makes no known record wait |
| ActionResults.ExecutedOnce | companion/services/action_service.py:334-394 | over every interleaving the provider executes each action at most once |
| ActionResults.ExecutedOnlyApproved | companion/services/action_service.py:206-267 | an action of high or irreversible risk executes only after an approving confirmation, and is neither denied nor expired at any time |
| ActionResults.DecidedOnce | companion/services/action_service.py:334-363 | in every run an action is decided or expires at most once |
| ActionResults.DecidedInTime | companion/services/action_service.py:139-160 | a confirmation decides only an action created within the time to live of the moment the confirmation took the lock |
| ActionResults.ExecutionWasLogged | companion/services/action_service.py:500-523 | with durable audit each execution was preceded in the stored log by its intent, and that by the confirmation of a confirmed action |
| ActionResults.UndoWasLogged | companion/services/action_service.py:669-689 | with durable audit each undo was preceded by its stored request and then its stored intent |
| ActionSafety.AuditSpec | companion/services/action_service.py:749-817 | an audit stores at most one entry and reports success, when durability is required, only if it stored it |
| ActionResults.WaitingIsCapped | companion/services/action_service.py:241-267 | in every run the actions awaiting confirmation stay within the cap |
| ActionResults.NeverWaitsAgain | companion/services/action_service.py:139-160 | a record that stopped waiting never waits again |
| ActionProgress.SlotsAreCounted | companion/services/action_service.py:396-413 | in every run exactly the tasks between slot entry and their end hold a slot, so none is leaked, and never more than allowed |
| ActionProgress.ExecutableIff | companion/services/action_service.py:396-523 | an action that cannot be confirmed any more executes in some continuation if and only if it has executed or somebody carries it whom no quarantine, missing store, missing provider or lack of slots stops |
| ActionFailures.FailedRequestStopsIff | companion/services/action_service.py:269-313 | a request that fails, in its audit or its preview, closes its action, which still executes in some continuation if and only if it has executed or an approving confirmation can still carry it on |
| ActionFailures.FailedRequestStopsWaiting | companion/services/action_service.py:269-313 | a failed request stops for good every action that still waits for its decision |
| ActionFailures.ExecutedThoughFailedWasApproved | companion/services/action_service.py:288-313 | what executes although its request failed had been approved before the failure |
| ActionFailures.FailedPreviewDoesNotStopApproved | companion/services/action_service.py:288-363 | whenever a confirmation is claimed while the preview still runs, the failing preview closes the action, and it can still execute |
| ActionFailures.PreviewIsReached | companion/services/action_service.py:241-313 | a first request for any action that needs confirmation reaches such a preview |
| ActionUndo.UndoneTwice | companion/services/action_service.py:525-575 | after every run an action that can be undone can be undone twice |
| Redaction.RedactionIsClean | companion/security/redaction.py:31-57 | no sensitive value survives redaction of any tree |
| Redaction.CleanIffUnchanged | companion/security/redaction.py:31-57 | redaction leaves a tree alone exactly when it is clean |
| Redaction.RedactionIdempotent | companion/security/redaction.py:31-57 | redacting twice is redacting once |
| Redaction.IdempotentIffSettled | companion/security/redaction.py:21-57 | redaction of all trees is idempotent exactly when redaction of plain strings is |
| AuditChain.AuditStore.Append | companion/security/action_audit.py:116-162 | appends the row chained to the head, or changes nothing when a row is refused |
| AuditChain.AuditStore.VerifyChain | companion/security/action_audit.py:194-206 | the loop accepts exactly the chained logs |
| AuditChain.AppendsVerify | companion/security/action_audit.py:95-162 | any run of appends verifies, although the verifier redacts stored details again |
| AuditChain.HeadDeterminesLog | companion/security/action_audit.py:95-113 | two verified logs with one head hash have equal length and agree record by record, up to redaction |
| AuditChain.HeadDeterminesAppendedLog | companion/security/action_audit.py:116-162 | for appended logs equal heads mean equal tables |
| AuditChain.PrefixVerifies | companion/security/action_audit.py:194-206 | every prefix of a verified log verifies, so a missing tail is not noticed by the chain alone |
| MemoryTables.MemoryStore.AppendEvent | companion/memory/memory_service.py:377-417 | a ledger id is taken once |
| MemoryTables.MemoryStore.UpsertFact | companion/memory/memory_service.py:456-480 | closes the open versions of the key and adds the new one, and with a taken id closes them and fails |
| MemoryTables.MemoryStore.Forget | companion/memory/memory_service.py:719-751 | the loops remove the citing rows and the events, and count what they removed |
| MemoryTables.MemoryStore.VerifyConsistency | companion/memory/memory_service.py:923-944 | counts every reference to a missing event, and finds none exactly on consistent tables |
| MemoryTables.ForgetIsExact | companion/memory/memory_service.py:719-751 | forgetting removes exactly the asked events and the derived rows that cite one of them |
| MemoryTables.ForgetKeepsConsistent | companion/memory/memory_service.py:719-751 | forgetting leaves no fact or episode pointing at a missing event |
| MemoryTables.UpsertOnlyCloses | companion/memory/memory_service.py:455-480 | an upsert changes older rows only by closing the open versions of its key |
| MemoryTables.UpsertFitsIff | companion/memory/memory_service.py:455-480 | an upsert of any fact keeps the validity intervals of every key disjoint if and only if each version stored of its key is void, ends by its start, or starts at or after its own end |
| MemoryTables.OpenDraftFitsIff | companion/memory/memory_service.py:455-480 | for a fact without an end of its own: if and only if it starts no earlier than every version that was ever valid ends, an open one ending now |
| MemoryTables.AlwaysDisjointIff | companion/memory/memory_service.py:455-480 | over every run, with any validities and any clock, versions stay disjoint throughout if and only if every upserted fact had room |
| MemoryTables.VersionsNeverOverlap | companion/memory/memory_service.py:455-480 | over every run of upserts and forgets with a clock that never goes back, versions of a key are disjoint and at most one is open |
| MemoryTables.BackdatedFactOverlaps | companion/memory/memory_service.py:472-473 | a fact with a start of its own can overlap the version it closes |
| MemoryLock.DurableDuringRebuild | companion/memory/memory_service.py:233-259 | as long as a rebuild is under way the durable tables are those at its BEGIN and no other operation runs |
| MemoryLock.RebuildIsAtomic | companion/memory/memory_service.py:753-790 | whatever step comes next, the durable tables are entirely the old or entirely the rebuilt ones, and the old ones after any failure |
| MemoryLock.RebuildSucceeds | companion/memory/memory_service.py:770-775 | a rebuild without failure makes its whole plan durable |
| MemoryLock.CommittedWhole | companion/memory/memory_service.py:233-259 | an operation that commits makes all its statements durable |
| MemoryLock.FailureLeavesPrefix | companion/memory/memory_service.py:456-480 | a failing statement leaves exactly the statements before it in the open transaction |
| MemoryLock.LeftoverIsCommitted | companion/memory/memory_service.py:233-235 | what a failed operation left is made durable by the next operation that commits |
| MemoryLock.BrokenOffIsCommitted | companion/memory/memory_service.py:233-259 | however an operation is broken off, by a failing statement or a cancellation, the next operation commits exactly the statements it had executed |
| MemoryFailures.UpsertFailureIsInvisibleIff | companion/memory/memory_service.py:456-480 | an upsert that is broken off leaves no trace in what any later operation commits if and only if its first statement was not executed, or only that one was and the key had no open version |
| MemoryFailures.LeftoverOfUpsert | companion/memory/memory_service.py:456-480 | the tables after a broken off upsert and somebody else's append |
| MemoryFailures.FailedUpsertLeaks | companion/memory/memory_service.py:456-480 | from any tables: an upsert with a taken id, then an append by somebody else, and the open version of the key is closed for good |
| MemoryLock.RebuildRefusedWhileOpen | companion/memory/memory_service.py:768-769 | a rebuild cannot begin inside an open transaction, and changes nothing |
| Replay.ReplayEqualsLiveIff | companion/core/orchestrator.py:694-705 | live and rebuilt facts show the same open versions if and only if, for each key of the ledger, the last statement with an effect live was stored and says what the last one in the ledger says; each statement of a turn has its own fate, as an exception may end the storing anywhere |
| Replay.ReplayEqualsLive | companion/core/orchestrator.py:694-705 | a run whose turns stored all they stated in ledger order is reproduced by a rebuild |
| Replay.InterruptedTurnDiffers | companion/memory/memory_service.py:792-836 | what an interrupted turn stated is not stored live, and a rebuild brings it up |
| Replay.ForgetThenRebuildIff | companion/memory/memory_service.py:719-751 | after forgetting, the stored and the rebuilt open versions agree if and only if no superseded value reopens |
| Replay.RebuildAfterForgetIff | companion/memory/memory_service.py:792-836 | the same, for the ledger without the forgotten events |
| Replay.ForgottenChangeReopens | companion/memory/memory_service.py:719-751 | forgetting the turn that changed a name leaves no open name, and a rebuild reopens the earlier one |
| Rebuild.PlanRebuilds | companion/memory/memory_service.py:792-870 | the deletions and upserts of a rebuild, run from any derived tables over the same ledger, leave exactly the rebuilt ones |
| Rebuild.RebuildMakesDurable | companion/memory/memory_service.py:753-870 | in every run the commit of a rebuild that met no failure makes durable exactly the tables rebuilt from the ledger it began with, and on them the consistency check finds no error |
| Replay.RebuiltIsConsistent | companion/memory/memory_service.py:792-870 | after a successful rebuild the consistency check finds no error and each key has at most one open version |
| Episodes.Segment | companion/memory/episode_segmenter.py:102-196 | the loop returns exactly the long runs of the turns cut at every boundary |
| Episodes.RunsPartition | companion/memory/episode_segmenter.py:122-170 | the runs cut the turns without losing, repeating or reordering any |
| Episodes.RunsAreTight | companion/memory/episode_segmenter.py:129-145 | no run holds a gap above 300 s between neighbouring timestamped turns |
| Episodes.RunsAreJustified | companion/memory/episode_segmenter.py:129-157 | a run ends only before a gap, or when long enough before a change of topic |
| Episodes.EpisodesAreRuns | companion/memory/episode_segmenter.py:173-190 | the episodes are exactly the runs of at least three turns |
| Episodes.RunsAreDisjoint | companion/memory/episode_segmenter.py:122-170 | runs are contiguous stretches of the input, and later ones start after earlier ones end |
| Episodes.ShortRunIsLost | companion/memory/episode_segmenter.py:143-145 | a short run before a gap is in no episode and does not join the next run |
| FactSpans.Extract | companion/memory/fact_extractor.py:101-140 | the loop extracts what the patterns yield one after another |
| FactSpans.ExtractsSound | companion/memory/fact_extractor.py:113-140 | every fact stands at its pattern's first occurrence, and no two share a character |
| FactSpans.SkippedOnlyForLonger | companion/memory/fact_extractor.py:88-124 | an occurring pattern yields a fact unless an extracted pattern at least as long occupies part of its place |
| FactSpans.ContextIsFull | companion/memory/fact_extractor.py:142-156 | the context always holds the pattern, so it is never empty |
| HistoryPages.CompletedEvents | companion/desktop/history.py:140-168 | the batches of one look, each from the ledger as that batch finds it, up to the projection limit |
| HistoryPages.BatchesAgreeIff | companion/desktop/history.py:152-168 | when events are recorded between batches: the look yields the newest events of the ledger it started with, each once, if and only if no batch that is read finds more of them than the first did |
| HistoryPages.LateEventRepeats | companion/desktop/history.py:140-168 | one event recorded between two batches makes the look differ from the newest events of the first |
| HistoryPages.History | companion/desktop/history.py:74-138 | one page of turns for a cursor, as a function of the batches, and of the ledger when they find the same events |
| HistoryPages.BoundIsHarmless | companion/desktop/history.py:87-104 | the lower bound of the query hides no row the page would show |
| HistoryPages.WalkIsCompleteIff | companion/desktop/history.py:96-138 | asking for what is newer than the last row yields everything exactly when no page boundary splits equal times |
| HistoryPages.DistinctTimesSuffice | companion/desktop/history.py:96-104 | with distinct times in the session no boundary splits a tie |
| HistoryPages.PagesAddUpIff | companion/desktop/history.py:74-138 | following cursors while newer events arrive ends, and yields the projection at the first snapshot if and only if no boundary splits a tie |
| HistoryPages.TiedTurnIsLost | companion/desktop/history.py:96-138 | of two turns of equal time pages of one turn never show the second |
| HistoryPages.ListSessions | companion/desktop/history.py:28-72 | one page of sessions for a cursor, as a function of the batches, and of the ledger when they find the same events |
| HistoryPages.SessionRows | companion/desktop/history.py:38-60 | each session has one row with its count, its earliest words as title, and its last activity |
| HistoryPages.SessionPagesAddUp | companion/desktop/history.py:61-72 | following cursors yields each session at the first snapshot once and in order |
| Speech.IncrementalAssistantSpeech.Push | companion/security/assistant_output.py:59-62 | what one chunk releases, and that the released text is what was emitted |
| Speech.IncrementalAssistantSpeech.Finish | companion/security/assistant_output.py:64-66 | what the end of the reply releases, and the whole sanitized reply |
| Speech.SpokenIsSanitized | companion/security/assistant_output.py:34-87 | for every chunking, either a release fails or exactly the sanitized reply was emitted |
| Speech.ChunkingIsIrrelevant | companion/security/assistant_output.py:45-87 | two successful chunkings of one reply say the same |
| Speech.EmissionsEndSentences | companion/security/assistant_output.py:68-94 | everything emitted before the end stops at a speech boundary |
| Speech.BenignSanitized | companion/security/assistant_output.py:34-57 | a beginning of a benign reply is kept as it is, but for outer space and line breaks |
| Speech.BenignNeverFails | companion/security/assistant_output.py:34-110 | no chunking of a reply without internal lines, fences, bracketed lines and final markers ever fails |
| TtsText.SplitTextForFish | companion/providers/implementations/cloud_tts.py:500-525 | the segments add up to the text, each fits the limit (or is one character wider than a limit below four bytes), and a fitting text stays whole |
| TtsText.OversizedFits | companion/providers/implementations/cloud_tts.py:527-541 | the parts of an oversized piece add up to it and each fits or is one character |
| TtsText.OversizedGreedy | companion/providers/implementations/cloud_tts.py:527-541 | no part had room for the first character of the next |
| TtsText.RestoreAlignmentText | companion/providers/implementations/cloud_tts.py:467-483 | returns pieces that add up to the content exactly when it embeds the segments in order, and the input otherwise |
| TtsStream.SynthesizeStream | companion/providers/implementations/cloud_tts.py:164-260 | the nested loops yield the stream of the requests, or what was delivered before a cancellation was noticed, or fail |
| TtsStream.StreamAddsUp | companion/providers/implementations/cloud_tts.py:164-260 | all audio is delivered once and in order on one timeline, one chunk per request carries its text, and only the last is final |
| TtsStream.SucceedsIff | companion/providers/implementations/cloud_tts.py:410-465 | the stream fails exactly when an alignment has invalid times or a request has no audio |
| TtsStream.AlignmentsStayApart | companion/providers/implementations/cloud_tts.py:176-217 | alignments of different requests never replace each other, and each is moved to where its request's audio starts |
| TtsStream.CancelledIsPrefix | companion/providers/implementations/cloud_tts.py:190-250 | a stream cancelled anywhere delivers a beginning of what it would have delivered |
| StreamedPhrases.StreamIsPhrase | companion/providers/implementations/cloud_tts.py:164-296 | the chunks of a stream of at most a thousand requests have indices and chunk numbers of their own, as the rebasing of phrases asks |
| StreamedPhrases.StreamIsGaplessIff | companion/services/voice_pipeline.py:1063-1086 | a stream is a phrase without gaps if and only if each length recorded before its last chunk is the one by which the stream placed the next |
| StreamedPhrases.StreamIsAligned | companion/providers/implementations/cloud_tts.py:164-296 | a stream whose snapshots only append, with times in order, is an aligned phrase |
| PolicyGates.PolicyGate.EvaluateProactive | companion/core/policy_gate.py:152-273 | the decision and the new history for any level, context and clock readings |
| PolicyGates.PolicyGate.CountRecent | companion/core/policy_gate.py:407-413 | prunes the front of the history and counts the level inside the window |
| PolicyGates.PolicyGate.RecordFeedback | companion/core/policy_gate.py:345-368 | the counters keep total = acceptances + rejections of at most 21, in exact arithmetic |
| PolicyGates.BudgetHolds | companion/core/policy_gate.py:205-222 | in every run whose calls count at most a gap after they entered, no window of an hour less the gap holds more approvals of a level than its budget |
| PolicyGates.CooldownHolds | companion/core/policy_gate.py:224-233 | in every such run approvals of a level are its cooldown apart, when that is at most an hour less the gap |
| PolicyWindows.BudgetWindowIff | companion/core/policy_gate.py:407-413 | the windows in which a budget holds in every run with the gap, for every budget and cooldown: up to an hour less the gap if the cooldown lets the budget be used up in it, else shorter than budget times cooldown, and up to budget times that hour if the cooldown is longer than it |
| PolicyWindows.CooldownKeptIff | companion/core/policy_gate.py:224-233 | a cooldown is kept in every run with a gap if and only if it is at most an hour less the gap |
| PolicyGates.OverrunsIff | companion/core/policy_gate.py:205-222 | after every run, a call is approved and exceeds the budget of the hour up to its entry if and only if nothing blocks it and the approvals its counting sees are within the budget while those it misses fill the rest |
| PolicyGates.NeverAboveProposed | companion/core/policy_gate.py:208-222 | downgrading ends and never approves above the proposed level |
| Vad.VoiceActivityDetector.ProcessFrame | companion/audio/vad.py:79-153 | one frame through the pre-roll buffer and the state machine |
| Vad.MicrophoneCapture.HandleVadFrame | companion/audio/microphone.py:315-332 | what one frame puts on the speech queue |
| Vad.UtterancesAreWindows | companion/audio/microphone.py:165-332 | cutting the queue at its end markers gives back the utterances, one for each start edge: a contiguous window of frames from one pre-roll back to the frame before the end edge; edges alternate |
| Vad.PreRollNeeded | companion/audio/vad.py:73-76 | the chunk of a start edge looks like an end marker exactly when the pre-roll holds no frame |

## Left out

- VoiceTurnSafety.MoveKeeps: the pipeline is a step relation on values, not a class, because its moves interleave two tasks; a turn record shared by reference is a value in a map that both tasks update.
- ActionSafety.StepKeeps: the service is a step relation on values for the same reason; a late landing of an audit write that timed out is modelled as landing at the timeout or never; at most one cancellation reaches a task inside its shielded execution or undo, as a second would end that (action_service.py:366-371).
- MemoryLock.RebuildIsAtomic: operations are step relations on values, and a rollback or commit that is itself interrupted is taken to complete.
- VoiceTurnResults.OneTerminal: at most one cancellation arrives while a publish is drained, and turn identifiers are not reused.
- ActionResults.ExecutedOnce: says nothing about undo, which can run twice for one action (`ActionUndo.UndoneTwice`, shown with sandbox verification on), nor that quarantine stops executions already holding a slot, which it does not.
- MemoryTables.VersionsNeverOverlap: assumes no fact brings its own start or end, which the extractor never does; `MemoryTables.AlwaysDisjointIff` covers the others.
- MemoryFailures.UpsertFailureIsInvisibleIff: the same question for the other operations of several statements, such as forgetting, is not asked; the general step is `MemoryLock.BrokenOffIsCommitted`.
- HistoryPages.PagesAddUpIff: each page is read from one state of the ledger, and `HistoryPages.BatchesAgreeIff` says exactly when the batches of a page amount to that; for ledgers of at most 20 000 events, beyond which a projection drops the oldest; events of equal time keep one order between queries.
- Speech.BenignNeverFails: JSON parsing and fence removal are unknown functions that leave texts without brackets and fences alone.
- TtsStream.SynthesizeStream: decoding of its events is not modelled; the duration of audio is an unknown function.
- PolicyGates.BudgetHolds: the utility sum is a parameter of each call, as the property holds for every utility.
- PolicyWindows.BudgetWindowIff: for gaps above half an hour only cooldowns of at most an hour less the gap are covered; a gap is the time between two clock readings of one synchronous call.
- Vad.UtterancesAreWindows: frames are not empty, and a reset starts a new run.
- VoiceTurnResults.HistoryAgrees: the history is the list of everything committed; which of it the window of `Conversation` still holds is left to that module.
- TextTurns.OneTerminalIff: at most one cancellation reaches a text turn while it is committed.
- HeardRuns.HeardGrowsInRun: a provider that takes back or reorders an alignment it has sent is outside the hypothesis, which `HeardAligned.AlignedRunOnlyGrows` needs of the phrases only.
- StreamedPhrases.StreamIsGaplessIff: the length a chunk is recorded with and the one that places the next (cloud_tts.py:292 and 486) are two floating-point forms of one quotient; they stay two unknown functions, and whether they agree is the condition.
- StreamedPhrases.StreamIsAligned: that the times a provider sends are in order and within the audio comes from outside the repository.
- EventBuses.ServedBeforeNext: a handler that timed out may keep running; only what the bus waits for is modelled; at most one cancellation arrives while a publish is drained, as a second would end it between its deliveries (event_bus.py:121-126).
- EventBuses.ShutdownIsFinal: makes the same assumption about cancellations.
- Voice pipeline: a spoken reply for which no synthesis or no audio output is configured is one failing move; latency figures, metrics and avatar updates are not modelled.
- AffectState, RelationshipState, prompts, gestures, telemetry, diagnostics, configuration and release scripts: clamps, tables and validation.
- HTTP, SSE and WebSocket transport, Windows credentials, process supervision and audio devices: only their outcomes are modelled.
- Full-text search, backup and restore, schema checks: SQLite itself is not modelled.
- DesktopHost, ControlServer and the TypeScript adapters: they connect the components modelled here.
