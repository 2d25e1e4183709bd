# Verified model of carpenter-core's stateful components

A Dafny 4.11 model of the parts of carpenter-core whose correctness spans many
steps: the API rate limiter, the chat message pipeline and its tool loop, the
chat tool set with hot reload, the duplicate-preset migration, the message
splitter and escaper, the circuit breaker, tool selection, and the coding-agent
loop. `dafny verify dfyconfig.toml` checks the whole project.

Each component has a specification (functions on values), the program's own
operation as a method or a class with the same loops and updates, proved equal
to the specification, and lemmas that say what the specification guarantees over
every input or every run.

| file | component |
|---|---|
| `RateLimiter.dfy` | the per-model sliding windows, with a ledger of everything that happened |
| `Messages.dfy` | stored rows, formatting, merging of consecutive roles |
| `ApiStandard.dfy` | canonical blocks to and from the OpenAI format |
| `Pairing.dfy` | the tool_use / tool_result contract of the messages API |
| `History.dfy` | the id map, history conversion, the split of a compaction |
| `ChatLoop.dfy` | the chat tool loop and whole conversations |
| `CodingAgent.dfy` | the loop of the built-in coding agent |
| `ToolRegistry.dfy`, `ToolLoader.dfy`, `ToolSelection.dfy` | validation, hot reload and selection of chat tools |
| `PresetMigration.dfy` | the policy table migration and preset seeding |
| `SplitMessage.dfy`, `TelegramEscape.dfy` | channel formatting |
| `CircuitBreaker.dfy` | the provider circuit breaker |
| `Common.dfy`, `Ordering.dfy` | shared helpers; sorting by a string key |

## What the proofs found

- The rate limiter bounds every 60-second window even though a 429 fill stamps
  requests in the future and leaves the deque unsorted: a clean only ever drops
  expired entries, so every stored reading is accounted for.
- After a computed wait one re-check admits if and only if the token estimate
  fits the token limit and fewer requests than the limit allows are still stored
  by then. The second part always holds while the stored requests are within the
  limit in force, and fails after a header lowers the limit and reports no
  remaining count (`LoweredLimitWaitsAgain`): the caller then waits again. A 429
  fill keeps the stored requests within the limit if and only if its target does,
  which a fraction in the documented range guarantees.
- Converting history for an OpenAI client raises a KeyError exactly when a user
  message mixes tool_results with another block. Of a stored history that is
  formatted and merged, conversion succeeds if and only if every user list with
  tool_results holds nothing else and no user or system string is stored directly
  after it; one user row after a tool turn is enough to break it
  (`NoteAfterResultsIsNotConvertible`).
- A message delivered into a conversation while a tool runs is stored as an
  assistant string. Stored directly after the call it is merged into the call
  and does no harm; stored after a user message or a notification of the same
  turn it separates the call from its results for good
  (`DeliveryAfterNotificationBreaksPairing`). A tool turn leaves the stored
  history well paired exactly when that does not happen, and a history that is
  not well paired never becomes so again.
- A response that stops for another reason than `tool_use` leaves the history
  well paired exactly when it carries no tool_use block, and a compaction leaves
  no stray tool_results exactly when its cut does not split a pair. These three
  conditions together decide, for every conversation, whether all lists sent are
  well paired (`EveryListSentIsPaired`, `NextTurnShowsIt`).
- A reload injects the platform tools before validation and a load after it;
  both accept the same files, and a reload commits what a load followed by the
  registrations would give. The one case where the set disagrees with the files
  after a heartbeat: the last load found no directory, and the directory that
  exists now holds no module, so no change is seen and the platform tools stay
  missing (`PlatformToolsStayMissing`).
- A platform name maps to its own definition exactly when no listed file defines
  a tool of that name, so a file can replace a platform tool.
- Re-seeding adds no row if and only if every preset has a policy body. The
  seeding comment says every preset has one; a configured preset without
  constraints serialises to NULL and is inserted again on every start.
- Telegram escaping is injective on all texts, backslashes included.

Where code and comments disagree the model follows the code: merging a string
before a list drops the string (the docstring's list says it is prepended), a
file tool replaces a platform tool of its name (the loader's header says it
cannot), and above 16384 tokens the core tools are the registry's always-available tools (the
configurable larger core set is computed and not used).

## Model

| member | source | states |
|---|---|---|
| RateLimiter.ModelBucket.CleanWindows | carpenter/agent/rate_limiter.py:66-72 | the two prefix loops leave exactly the cleaned windows, sorted or not |
| RateLimiter.CleanedMeaning | carpenter/agent/rate_limiter.py:66-72 | a clean drops exactly the entries older than 60 seconds in front of the first live one |
| RateLimiter.ModelBucket.CurrentItpm | carpenter/agent/rate_limiter.py:74-76 | the loop computes the token sum of the window |
| RateLimiter.ModelBucket.ScanTokens | carpenter/agent/rate_limiter.py:309-317 | finds the first entry at which the running token sum reaches what is needed |
| RateLimiter.ModelBucket.AttemptAcquire | carpenter/agent/rate_limiter.py:284-319 | admits exactly when both limits in force allow it, where a reported limit counts with headroom and truncated, and logs the admission under the request limit in force; keeps the invariant of all runs |
| RateLimiter.ModelBucket.Acquire | carpenter/agent/rate_limiter.py:245-333 | the retry loop with its computed waits: True with exactly one admission at the first pass whose test holds, False only on shutdown or at the deadline; with everything in its limits a wait that was slept through is the last one |
| RateLimiter.ModelBucket.RecordTokens | carpenter/agent/rate_limiter.py:336-351 | appends the record, sets the estimate, cleans to the last 60 seconds, and keeps the invariant |
| RateLimiter.ModelBucket.RecordRejection | carpenter/agent/rate_limiter.py:354-382 | fills both windows to the target fraction with the program's timestamps, and keeps the invariant |
| RateLimiter.RejectionFills | carpenter/agent/rate_limiter.py:362-379 | fills requests up to the truncated fraction of the limit in force, a hundredth of a second apart, and adds one token entry for what the sum lacks |
| RateLimiter.ModelBucket.UpdateFromHeaders | carpenter/agent/rate_limiter.py:186-229 | takes the reported limits, the lower of the two token limits, and leaves exactly the newest limit-minus-remaining requests when more than two too many are stored |
| RateLimiter.CleaningKeepsWindow | carpenter/agent/rate_limiter.py:66-72 | cleaning removes no reading that still lies in the window, although the deque may be unsorted |
| RateLimiter.CleaningIsFiltering | carpenter/agent/rate_limiter.py:71-72 | on the sorted token deque, dropping the expired prefix is filtering by time |
| RateLimiter.StepKeepsValid | carpenter/agent/rate_limiter.py:168-382 | every step keeps the balance of admitted, synthetic, stored and trimmed readings, the admission bounds, and the token log agreement |
| RateLimiter.WindowSafety | carpenter/agent/rate_limiter.py:284-303 | in every run, the admissions of any closed 60-second window number at most the limit of the last one plus the trimmed entries of the window |
| RateLimiter.TokenWindowIsFilteredHistory | carpenter/agent/rate_limiter.py:66-76 | in every reachable state a cleaned token deque is the full log filtered to the last 60 seconds, and so is its sum |
| RateLimiter.AdmissionTest | carpenter/agent/rate_limiter.py:289-294 | in every run an attempt is logged, under the limit in force, exactly when both limits in force hold, with tokens summed over the filtered full log |
| RateLimiter.ReachTimeMeaning | carpenter/agent/rate_limiter.py:309-317 | the token scan stops at the first entry whose prefix sum reaches the target and fails exactly when the whole sum does not |
| RateLimiter.WaitIsExact | carpenter/agent/rate_limiter.py:304-319 | one re-check after the wait admits if and only if the estimate fits the token limit and few enough stored requests remain by then |
| RateLimiter.WaitSuffices | carpenter/agent/rate_limiter.py:304-319 | with the stored requests within the limit, if and only if the estimate fits the token limit or there is none |
| RateLimiter.LoweredLimitWaitsAgain | carpenter/agent/rate_limiter.py:189-229 | three calls and a header that lowers the limit to one: the re-check after the computed wait is refused |
| RateLimiter.WaitIsTight | carpenter/agent/rate_limiter.py:304-319 | no re-check up to the slack before the larger expiry wait is admitted |
| RateLimiter.WaitIsNoLonger | carpenter/agent/rate_limiter.py:304-319 | a wait is at least one second, and a longer one is tight to a tenth of a second |
| RateLimiter.WaitIsExactInRuns | carpenter/agent/rate_limiter.py:284-319 | the exact condition and the tightness in every run, whatever limits headers report; runs that keep the stored requests within the limit in force always leave room |
| RateLimiter.StepFits | carpenter/agent/rate_limiter.py:186-373 | a step keeps the stored requests within the limit in force exactly when its 429 target, or the limit and remainder of its header, allow it |
| RateLimiter.StoredWithinLimit | carpenter/agent/rate_limiter.py:291-297 | under one limit, attempts, records and trims keep the stored requests within it |
| RateLimiter.FillWithinLimit | carpenter/agent/rate_limiter.py:366-373 | a 429 fill does so if and only if its target is within the limit |
| RateLimiter.FillFractionInRange | carpenter/agent/rate_limiter.py:354-362 | a fraction between 0 and 1 gives such a target |
| Messages.FormatMessagesForApi | carpenter/agent/conversation.py:648-690 | formats and merges, and sends what the rows hold: first run of plain rows, stored texts and stored lists |
| Messages.PlainRowsMerge | carpenter/agent/conversation.py:659-690 | without stored JSON the list has one message for each maximal run of one sent role, with the rows' own texts joined by newlines |
| Messages.StoredTextIsSent | carpenter/agent/conversation.py:685-690 | a stored text that no list of its run follows is in a message of its role |
| Messages.StoredListIsSent | carpenter/agent/conversation.py:668-683 | a stored block list is the start of a message of its role, tool results as user and tool calls as assistant |
| Messages.IgnoredRowsVanish | carpenter/agent/conversation.py:659-690 | a tool row without JSON makes no difference |
| Messages.MergeNext | carpenter/agent/conversation.py:713-740 | the four type cases of one merge step |
| Messages.MergeConsecutiveRoles | carpenter/agent/conversation.py:693-741 | the in-place loop yields the run-by-run merge |
| Messages.FoldIsRunByRun | carpenter/agent/conversation.py:693-741 | the fold equals the specification by maximal same-role runs: strings before a list are dropped, others joined, and a list takes up the strings after it |
| Messages.MergeSettles | carpenter/agent/conversation.py:693-741 | merging is idempotent and leaves adjacent same-role messages only when both hold lists |
| Messages.MergeKeepsTools | carpenter/agent/conversation.py:723-740 | the sequence of tool_use and tool_result blocks is unchanged |
| ApiStandard.NormalizeResponse | carpenter/agent/api_standard.py:103-168 | the text block and one block for each call with its id, name and decoded arguments (absent, direct, encoded or the first 200 characters of malformed text), the stop reason, each usage field and the model; without choices an empty turn with zero usage |
| ApiStandard.FormatAssistantToolMessage | carpenter/agent/api_standard.py:202-239 | joins the non-empty texts with newlines and encodes each tool_use block in order |
| ApiStandard.FormatToolResults | carpenter/agent/api_standard.py:171-199 | one tool message per block with its id and content, failing exactly when some block is not a tool_result |
| ApiStandard.RoundTrip | carpenter/agent/api_standard.py:120-145 | formatting and normalizing back gives the canonical form; it is the identity exactly on canonical blocks and is idempotent |
| Pairing.WellPairedMeaning | carpenter/agent/conversation.py:696-698 | the chain definition says exactly that each tool_use is answered at once, in order, and results answer something |
| Pairing.MergePairs | carpenter/agent/conversation.py:726-737 | merging gives a well-paired list if and only if between each tool_use and its results only strings come, assistant strings before user strings |
| Pairing.ResultsAnswer | carpenter/agent/invocation.py:2881-2921 | the results of a tool turn lead with exactly the ids of its tool_use blocks, in order, each with its own output |
| Pairing.UnansweredUseBreaksPairing | carpenter/agent/invocation.py:2847-2856 | after an assistant message stored outside a tool turn, whatever strings follow, the next list is well paired exactly when that message opens no tool_use |
| History.BuildMessageIdMap | carpenter/agent/invocation.py:2290-2339 | the map is as long as the message list, and entry i carries the id of row i |
| History.ConvertEntry | carpenter/agent/invocation.py:3157-3177 | one entry becomes its calls, one reply for each result, or the message unchanged, with its id first and None after it |
| History.ConvertHistoryToOpenAi | carpenter/agent/invocation.py:3129-3181 | the conversion fails exactly when a user list mixes tool_results with another block, and otherwise converts every entry |
| History.ConvertPrefix | carpenter/agent/invocation.py:3148-3181 | what the first entries became stays in front of what later ones become, in both lists |
| History.ConversionKeepsIds | carpenter/agent/invocation.py:3129-3181 | both lists stay in step, every non-None row id and every tool id is kept in order |
| History.MergedHistoryConvertible | carpenter/agent/api_standard.py:191-198 | of all stored histories, exactly those convert in which every user list with tool_results holds nothing else and no user string directly follows it |
| History.NoteAfterResultsIsNotConvertible | carpenter/agent/api_standard.py:191-198 | the smallest history that does not: one tool turn and a user row |
| History.CompactKeepsTail | carpenter/agent/invocation.py:2137-2151 | the summary message and its row id in front of exactly the preserved tail of both lists; nothing changes without a summary or with too few entries |
| History.CompactionPairing | carpenter/agent/invocation.py:2279-2287 | after a compaction every tool_use is still answered, and the list is well paired exactly when the cut does not split a pair |
| ChatLoop.AttachPerTurnContext | carpenter/agent/invocation.py:653-707 | only the last user message changes: the block goes behind its blocks if one is a tool_result, and in front otherwise |
| ChatLoop.AttachKeepsPairing | carpenter/agent/invocation.py:688-702 | the per-turn block never separates a tool_use from its results, nor brings them together |
| ChatLoop.ExecuteTools | carpenter/agent/invocation.py:2878-2921 | one result per tool_use block, in order, with its id and output, and a final reply exactly when a tool gave one |
| ChatLoop.Conversation.ToolTurn | carpenter/agent/invocation.py:2858-2995 | goes on exactly when no tool gave a final reply (or in an arc step) and there is no text, no call, or a call of another tool than fetch_web_content; the rows stored, the messages added and the stop reason |
| ChatLoop.ToolStepStores | carpenter/agent/invocation.py:2858-2974 | the row of the call with its text, the strings stored meanwhile, the row of the results, and the reply row when tools supplied the reply |
| ChatLoop.PassStores | carpenter/agent/invocation.py:2796-2856 | a pass without tool calls stores the strings of the call and then the answer or the error, with their texts and JSON |
| ChatLoop.CompactStepMeaning | carpenter/agent/invocation.py:2241-2284 | the row a compaction stores and the prompt it leaves |
| ChatLoop.Conversation.OnePass | carpenter/agent/invocation.py:2745-2995 | one pass: the list it sends, whether it goes on, and that a failed call returns exactly when no text was collected |
| ChatLoop.Conversation.ForceFinalResponse | carpenter/agent/invocation.py:2997-3041 | one more list, the prompt and the request for a summary, exactly when the loop ended in tool use or collected no text, and the row of its answer |
| ChatLoop.Conversation.InvokeForChat | carpenter/agent/invocation.py:2463-3085 | the whole invocation: every pass after a tool turn sends its results, and the exact conditions for closing the history and for sending only well-paired lists |
| ChatLoop.InvocationEnds | carpenter/agent/invocation.py:2745-3041 | the first pass that does not go on is the last; a reply is forced exactly when all passes went on, or the last call failed after some text |
| ChatLoop.NextPassSeesResults | carpenter/agent/invocation.py:2944-2959 | after a pass that goes on the next list sent ends with its response and the results of its calls, unless it is compacted first |
| ChatLoop.FirstListSent | carpenter/agent/invocation.py:2591-2745 | the first list is the formatted history, with the per-turn block in a chat turn and without it in an arc step |
| ChatLoop.PassKeepsLengths | carpenter/agent/invocation.py:2944-2959 | each tool turn and compaction keeps the message and id lists equal in length |
| ChatLoop.InvocationKeepsLengths | carpenter/agent/invocation.py:2463-3085 | the two lists are equal in length from the id map to the end of the loop |
| ChatLoop.FinalRowClosed | carpenter/agent/invocation.py:2847-2856 | the closing row leaves the history closed exactly when it was and the response carries no tool_use block |
| ChatLoop.ToolRowsClosed | carpenter/agent/invocation.py:2872-2933 | a tool turn leaves the history closed exactly when it was and, if anything was called, no assistant string stored meanwhile came after a user or system string |
| ChatLoop.DeliveryAfterNotificationBreaksPairing | carpenter/tool_backends/messaging.py:10-30 | a notification and then a delivered message between a call and its result break the pairing; the delivered message alone does not |
| ChatLoop.InvocationCloses | carpenter/agent/invocation.py:2745-3041 | an invocation leaves the history closed exactly when it was and every call it stored was answered |
| ChatLoop.InvocationPairs | carpenter/agent/invocation.py:2463-3085 | from a closed history, all lists sent are well paired exactly when no compaction of the invocation splits a pair |
| ChatLoop.PlainInvocationPairs | carpenter/agent/invocation.py:2463-3085 | without a compaction, exactly when the stored history was closed |
| ChatLoop.EveryListSentIsPaired | carpenter/agent/invocation.py:2858-2961 | in every conversation, with user, system and assistant strings stored at any point: every list sent is well paired and nothing is owed at the end if and only if every call was answered in order and no compaction split a pair |
| ChatLoop.NextTurnShowsIt | carpenter/agent/invocation.py:2858-2961 | the same condition read off the lists sent alone, once one more turn without compaction follows |
| CodingAgent.ExecuteTools | carpenter/agent/coding_agent.py:615-639 | the results in order with their ids and outputs, whether one of the three write tools was called, and the paths named |
| CodingAgent.EndTurn | carpenter/agent/coding_agent.py:570-613 | a nudge, a rejection, or the end; it ends exactly with no findings, after all rejections, or after all nudges |
| CodingAgent.UseTools | carpenter/agent/coding_agent.py:615-669 | appends the response and its results, nudges at the eighth read-only round, ends after two text-only rounds |
| CodingAgent.Respond | carpenter/agent/coding_agent.py:559-669 | an end_turn response goes to the end-of-turn rule and any other to the tool rule; keeps the limits, the message contract and the write record |
| CodingAgent.Iterate | carpenter/agent/coding_agent.py:466-669 | why an iteration ends the run, which iterations and calls count, and what a response leads to |
| CodingAgent.Run | carpenter/agent/coding_agent.py:455-680 | counters stay in their limits; the messages are well paired and the flags are exactly the write calls made; every outcome is that of the iteration that ended the run |
| ToolRegistry.CheckCapabilities | carpenter/chat_tool_registry.py:186-212 | exactly the capability errors: each unknown name, pure mixed with others, and an unconsented write capability |
| ToolRegistry.ValidateToolDefs | carpenter/chat_tool_registry.py:129-219 | exactly the errors that some definition earns or two of one name earn together; none exactly when every definition is valid and names are distinct |
| ToolRegistry.AllowlistsAre | carpenter/chat_tool_registry.py:25-124 | the names on the platform allowlist and the two capability lists |
| ToolLoader.Loader.ImportModules | carpenter/chat_tool_loader.py:523-545 | the import loop gives all tools, the first of a name winning, or fails with the first failing module |
| ToolLoader.Loader.LoadChatTools | carpenter/chat_tool_loader.py:501-579 | a load from scratch: it fails if a file without a leading underscore fails, and otherwise holds every tool name such files define; when it raises, the previous tools stay and the extension registry is empty |
| ToolLoader.Loader.RegisterExtensionTool | carpenter/chat_tool_loader.py:643-703 | registers a valid new name, skips a taken one, refuses an invalid tool |
| ToolLoader.Loader.SeesChange | carpenter/chat_tool_loader.py:718-742 | a change is seen exactly when the module names or their times differ from the tracked ones |
| ToolLoader.Loader.CheckAndReload | carpenter/chat_tool_loader.py:708-811 | a heartbeat commits the new set or leaves everything as it was, always so without a known directory |
| ToolLoader.HiddenFileNeverMatters | carpenter/chat_tool_loader.py:523-527 | a file whose name starts with an underscore makes no difference to a load, a heartbeat or the change test |
| ToolLoader.OtherFileIsImported | carpenter/chat_tool_loader.py:523-545 | any other file is imported: the load fails with it, its tool names are there after it, its time is tracked and a new time is a change |
| ToolLoader.MissingFileIsSeen | carpenter/chat_tool_loader.py:718-727 | a tracked name without such a file is a change |
| ToolLoader.GoodFilesLoad | carpenter/chat_tool_loader.py:523-556 | a load succeeds when every file that counts imports and yields only valid tools |
| ToolLoader.FirstDefinitionWins | carpenter/chat_tool_loader.py:523-538 | of several tools with one name that of the first file by name counts, and there the first |
| ToolLoader.PlatformToolsPresent | carpenter/chat_tool_loader.py:477-498 | the five platform names are present after every load |
| ToolLoader.ReloadValidatesLikeLoad | carpenter/chat_tool_loader.py:547-556 | validating before or after injecting the platform tools accepts the same files with the same result |
| ToolLoader.ReloadAgreesWithFreshLoad | carpenter/chat_tool_loader.py:747-811 | in every reachable state a reload commits exactly when a fresh load would not raise, and leaves the tools that load followed by registering the extension tools again would leave; a refused one changes nothing |
| ToolLoader.HeartbeatAgreesWithDisk | carpenter/chat_tool_loader.py:708-745 | in every run, after a heartbeat the set matches the files, except in the one case stated |
| ToolLoader.PlatformToolsStayMissing | carpenter/chat_tool_loader.py:518-522 | that case: a load without a directory, then a heartbeat over an empty one |
| ToolLoader.FilesReplacePlatformTools | carpenter/chat_tool_loader.py:477-498 | after a load each platform name is present, with its own definition exactly when no listed file defines a tool of that name |
| ToolLoader.FileReplacesEscalate | carpenter/chat_tool_loader.py:487-488 | a directory whose one tool takes the place of a platform tool |
| ToolLoader.ReachableSetIsSafe | carpenter/chat_tool_loader.py:674-702 | in every reachable state keys are names, platform tools are allowlisted, chat tools that write were opted in, and every extension name is present |
| ToolSelection.SelectionIsExact | carpenter/agent/invocation.py:242-275 | sorted, exactly min(offered, max_tools) tools, every offered core tool among them |
| ToolSelection.SelectionCount | carpenter/agent/invocation.py:234-254 | the same in figures: a tenth of the budget, at most 5000 tokens, at 150 or 80 tokens each, but no fewer than the core, whose members are given |
| ToolSelection.SelectionFitsBudget | carpenter/agent/invocation.py:242-254 | more tools than the core are offered only within 5000 tokens and a tenth of the context |
| ToolSelection.SelectionTakesFirst | carpenter/agent/invocation.py:266-273 | the non-core tools offered are the alphabetically first ones |
| Ordering.LessMeaning | carpenter/agent/invocation.py:256-257 | the order of names: a proper prefix first, otherwise the smaller character where they first differ |
| ToolSelection.SelectionIgnoresOrder | carpenter/agent/invocation.py:256-275 | the order of the tool map does not matter |
| ToolSelection.SelectionGrowsWithBudget | carpenter/agent/invocation.py:242-273 | within one budget regime a larger budget only adds tools |
| PresetMigration.PolicyDb.CollapseGroup | carpenter/db_migrations.py:1185-1209 | one group's UPDATE and DELETE, with their row counts |
| PresetMigration.PolicyDb.DedupePresets | carpenter/db_migrations.py:1174-1210 | the loop over groups gives the deduplicated rows and the moved pointers, and counts both exactly |
| PresetMigration.MigrationKeepsMeaning | carpenter/db_migrations.py:1158-1166 | every arc that resolved still resolves to the same contents; dangling pointers stay |
| PresetMigration.MigrationKeepsOthers | carpenter/db_migrations.py:1140-1144 | a row without name or body, or with a selector or an override, is untouched |
| PresetMigration.DuplicatesGo | carpenter/db_migrations.py:1174-1210 | of two rows with a name and a body in common and nothing else set the later one goes, and pointers to both move to one row |
| PresetMigration.MigrationKeepsPairs | carpenter/db_migrations.py:1174-1178 | every (name, body) pair still exists at its lowest id |
| PresetMigration.LookupByNameUnchanged | carpenter/core/arcs/manager.py:1438-1448 | a lowest-id lookup by name finds the same row |
| PresetMigration.MigrationIsIdempotent | carpenter/db_migrations.py:1168-1169 | the index can be created afterwards, and a second migration changes nothing |
| PresetMigration.PolicyDb.SeedPresets | carpenter/coordinator.py:67-82 | insert-or-ignore of every preset, with the number inserted, keeping the index: old rows stay, new rows are rows of presets behind them, and every preset with a body has its row |
| PresetMigration.ReseedingAddsNothing | carpenter/coordinator.py:58-82 | seeding the same presets again adds nothing if and only if every preset has a body |
| PresetMigration.RestartsKeepUnique | carpenter/coordinator.py:58-82 | over any number of restarts there is at most one row per pair |
| PresetMigration.RestartIsIdempotent | carpenter/coordinator.py:58-82 | a restart with the same presets changes nothing if and only if every preset has a body |
| SplitMessage.SplitLoop | carpenter/channels/formatting.py:114-149 | the loop follows the cutting rule to the end of the text and terminates |
| SplitMessage.SplitText | carpenter/channels/formatting.py:95-151 | the chunks of the split; for a non-empty text they fit and rejoin to it |
| SplitMessage.SplitIsFaithful | carpenter/channels/formatting.py:95-151 | chunks are non-empty and within the limit, and with one separator between neighbours they are the text |
| SplitMessage.RejoinsKeepsInk | carpenter/channels/formatting.py:120-149 | nothing but spaces and newlines is lost |
| SplitMessage.CutPriority | carpenter/channels/formatting.py:119-149 | the order of preference: paragraph, line, the three sentence ends, word, hard cut, each at its last occurrence |
| SplitMessage.LastInMeaning | carpenter/channels/formatting.py:119-144 | each search finds the last occurrence that ends by the limit, one that ends exactly there included |
| SplitMessage.SplitUnfolds | carpenter/channels/formatting.py:114-149 | each chunk is what the cut takes, and the split goes on behind what it skips |
| SplitMessage.CutFacts | carpenter/channels/formatting.py:119-149 | every cut is positive, within the limit, drops one separator and leaves text behind |
| SplitMessage.ZeroLimitMakesNoProgress | carpenter/channels/formatting.py:146-149 | with a limit of zero a pass changes nothing, so a limit of at least one is needed |
| TelegramEscape.FormatTelegram | carpenter/channels/formatting.py:31-74 | the loop computes the escaped text, which is fully escaped and decodes to the input |
| TelegramEscape.RoundTrip | carpenter/channels/formatting.py:31-74 | a decoder with the same toggles recovers every text |
| TelegramEscape.EscapeIsInjective | carpenter/channels/formatting.py:31-74 | no two messages are formatted alike |
| TelegramEscape.EscapeIsComplete | carpenter/channels/formatting.py:61-72 | every special character outside code is escaped and code content is copied unchanged |
| TelegramEscape.PlainCharacter | carpenter/channels/formatting.py:67-72 | outside code a character is written as it is, behind a backslash if it is a special one |
| TelegramEscape.InlineIsCopied | carpenter/channels/formatting.py:53-65 | inline code is copied, and escaping goes on behind it |
| TelegramEscape.BlockIsCopied | carpenter/channels/formatting.py:46-65 | a code block is copied, single backticks included, and escaping goes on behind it |
| CircuitBreaker.Breaker.AllowRequest | carpenter/agent/circuit_breaker.py:52-65 | answers by state, and for a positive threshold exactly by the history predicate |
| CircuitBreaker.Breaker.RecordSuccess | carpenter/agent/circuit_breaker.py:67-73 | closes and clears the count |
| CircuitBreaker.Breaker.RecordFailure | carpenter/agent/circuit_breaker.py:75-89 | counts, stamps and opens as the run semantics says |
| CircuitBreaker.BreakerIsItsHistory | carpenter/agent/circuit_breaker.py:52-89 | for every history a request passes exactly when the trailing failures are below the threshold or the recovery time has passed, and the breaker is closed exactly in the first case |
| CircuitBreaker.FreshBreakerIsClosed | carpenter/agent/circuit_breaker.py:42-50 | with a threshold below one that already fails for a fresh breaker |

## Left out

- Clock: the rate limiter and the breaker assume that clock readings do not decrease in lock order; `acquire` reads the clock before it takes the lock.
- Floating point: limits, headroom, fill fraction, waits and timestamps are exact reals; the moving average of the token estimate is an arbitrary natural number.
- RateLimiter.WindowSafety: counts the admissions the bucket records; the early return of `acquire` when both limits are off records nothing, and is not taken while the RPM limit is positive.
- RateLimiter.ModelBucket.Acquire: one caller without interference; other callers' steps may come between its passes, which the run lemmas cover step by step.
- The dictionary of buckets per model, the breaker registry, locks, threads, logging and the module-level proxies.
- Messages.MergeConsecutiveRoles: works on values; that the program rewrites the dictionaries of the list it was given is not captured.
- JSON text: a stored or encoded value is the value itself, since encoding and decoding are inverse; text that is not JSON is a separate case.
- ChatLoop.EveryListSentIsPaired: assumes that invocations on one conversation do not overlap and that the process does not stop between the row of a tool call and the row of its results (what such a stop does to later lists is `Pairing.UnansweredUseBreaksPairing`).
- ChatLoop.Conversation.InvokeForChat: rows get consecutive ids, the plain-text summary column of a tool_result row is empty (it is never sent to a provider), output truncation and tool dispatch are part of what a tool call returns, and the OpenAI branch of the tool loop is left out (its id list is not in step when a turn has several results).
- History.BuildMessageIdMap: states what the code computes; its documentation promises the first contributing row, which merging breaks.
- The escalation dialogue, prompt templates, context building, token estimates and the compaction events table.
- CodingAgent.Run: provider, tool handlers and verifiers are arbitrary functions of the iteration; the user texts of nudges and rejections are abbreviated.
- ToolLoader: imports and modification times are given per file, each operation is one atomic step, dicts are their items in order, a module's order of functions is as collected, a file's tools have handlers of their own, and platform definitions carry short descriptions and schemas.
- PresetMigration: the SQL engine; the migration is modelled with the pointer column present (without it no arc points anywhere), and a failed index creation is only logged by the program.
- SplitMessage.SplitText: a limit of zero is allowed only for the empty text, since the program does not terminate on others (`SplitMessage.ZeroLimitMakesNoProgress`); negative limits are not modelled.
- The Signal and WhatsApp formatters and tool definition conversion for providers: easy members.
