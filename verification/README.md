# VibeBuild: the stateful core, modelled and proved

VibeBuild pairs project owners with an AI agent that turns a conversation into a
requirement, a design and a plan. Most of the repository moves data between services; this
project models the small dense parts of it in which order, retries, repeated application or
interleaving decide the outcome, and proves what they promise.

| module | what it models |
|---|---|
| `Transcripts`, `AgentLoop`, `AgentRuns` | the bounded tool loop of an agent, plain and streamed, and the transcript it appends to |
| `AgentTranscript`, `StreamEvents` | the same loop told by position: what each reply, call, tool and result puts where in the transcript and in the events |
| `StoredTurns` | turn after turn of a conversation over the stored history, with expiries in between |
| `OpenAiWire`, `Conversation` | the translation of a transcript into the other provider's wire format, alone and together with client, loop and stored history |
| `WireReading` | reading the wire back, block by block |
| `StreamAssembly` | putting one reply together from interleaved stream fragments |
| `ClaudeMessages` | the role-order repair in front of the Claude client |
| `ProjectStates`, `Pipeline` | a project's stages, the orchestrator, and its requests as a state machine of single reads and writes that interleave with stale snapshots |
| `SoloRequests` | the same requests one at a time, against the orchestrator's methods |
| `DesignConfirmation` | what it takes for a design to show as confirmed |
| `DesignLoss` | when a design that was begun can be lost |
| `SessionHistory`, `JsonText` | the message history as a cache with expiry over database rows, and a codec that meets what is assumed of one |
| `RankFusion` | reciprocal rank fusion of the two searches, over exact fractions |
| `TextRepair` | the two sanitizers of the requirement agent |
| `VibeLevels`, `PointsLedger` | points, level bands, half-to-even rounding, and the running total under adjustments |
| `DerEncoding` | tag-length-value encoding and the wrapping of a public key, after X.690 and RFC 5280 |
| `TableLoader` | the admin table's out-of-order responses |
| `InviteCodes` | consuming an invite code under a row lock |

Code that changes state step by step is a class or a method with loops, tied by its
`ensures` to a specification function; the theorems are about those functions and about
whole runs. Models, tools, parsers, printers, hashes and clocks are arbitrary functions or
parameters.

## What the proofs found

Where a promise does not hold of the code as it stands, a failing input is given and the
exact condition is proved.

- A user's text that parses as a list with a tool block in it is a plain text while the
  cache holds it, and a forged call or result once it has come back from the database. The
  next request then carries a result of a call nobody made
  (`Conversation.ForgedResultReachesTheWire`). The stored history stays paired if and only if
  no expiry meets such a text (`StoredTurns.HistoryStaysPaired`), and a text can be said
  safely if and only if no repeated parsing of it comes to such a list
  (`StoredTurns.TextIsHarmlessExactlyWhen`).
- A design that was begun can vanish: a request that loaded before it was started may save
  afterwards (`Pipeline.StaleSaveErasesDesign`), and initialisation takes a failed database
  read for a missing project and stores a fresh state over everything, from any state
  whatever (`DesignLoss.FailedReadErasesAll`). With reads that do not fail, the design is kept
  if and only if cache and rows know of it and no waiting request can still save a snapshot
  that does not (`DesignLoss.DesignIsKeptExactlyWhen`).
- Tool arguments that parse to something other than an object end a run with an exception
  and an unanswered call. A run raises if and only if some input is no object or the model
  gives no answer (`AgentRuns.RunRaisesExactlyWhen`), and leaves the transcript paired if and
  only if no reply hides a bare dictionary and every input is an object
  (`AgentRuns.RunPairing`). None of the clients hands over bare dictionaries, so the first
  half always holds for them (`StoredTurns.ClientIsClean`).
- A design shows as confirmed only after a request to confirm it decided on a begun design
  (`DesignConfirmation.ConfirmedOnRequest`), but the request itself may have arrived before
  any design was begun (`DesignConfirmation.RequestMayComeFirst`).
- The task routes ask for a stage the guard does not know, which raises, so a task stage
  never leaves pending (`Pipeline.TaskNeverStarts`).
- A message text that parses as JSON comes back from the database as the parsed value
  (`SessionHistory.PrintedTextChanges`). Reads are faithful over a whole run if and only if
  every expiry finds a list of texts that do not parse
  (`SessionHistory.ReadsAreFaithfulExactlyWhen`).
- The agent-message repair is idempotent if and only if the message, without question marks
  and what dangles after them, does not end in 是了 with no comma at once behind it; 是？了
  fails (`TextRepair.IdempotentExactlyWhen`, `TextRepair.OneMessageFails`). Two applications
  always suffice.
- Documents found by both searches come first for lists up to k + 1 hits; for lengths m and n
  they do so in all lists if and only if 1/(k + m) + 1/(k + n) exceeds 1/(k + 1), which fails
  at k + 2 (`RankFusion.AgreementWinsExactlyWhen`, `RankFusion.OneLongerFails`).
- The DER length has at most three octets here, so a wrapped key decodes to itself if and
  only if the outer payload is below 2^24 octets (`DerEncoding.WrapRoundTrip`).

## Model

| member | source | states |
|---|---|---|
| `AgentLoop.ToolUseAgent.Run` | ai-agent/app/agents/base_agent.py:135-241 | the in-place loop leaves exactly the messages, agent state, last tool input and exception of the reference run, for any model and tools |
| `AgentLoop.ToolUseAgent.RunStream` | ai-agent/app/agents/base_agent.py:254-373 | the same for the streamed loop, with its events in order |
| `AgentLoop.ToolUseAgent.StreamOneRound` | ai-agent/app/agents/base_agent.py:295-359 | one round prepends its events to what the remaining rounds will do, or ends the stream |
| `AgentLoop.ToolUseAgent.ExecuteTools` | ai-agent/app/agents/base_agent.py:208-237 | calls run in order, a failing tool becomes an error result, an input that is no dictionary raises, and a tool's rewriting of its input shows in the stored message |
| `AgentLoop.Execute` | ai-agent/app/agents/base_agent.py:208-237 | one input per call and, unless it raises, one result per call; if it raises, fewer results than calls |
| `AgentTranscript.RunTold` | ai-agent/app/agents/base_agent.py:185-241 | a run in full, by position: each round asks the model of the transcript so far and stores its reply block by block, texts as said, calls with id, name and the input as its tool left it; each result is its tool's text or error; calls run in order on the agent's state; and the run ends in silence, a broken input, a missing answer or the limit |
| `AgentTranscript.RefusalTold` | ai-agent/app/agents/base_agent.py:163-179 | a refused run adds the refusal text and does nothing else |
| `AgentTranscript.RefusedExactlyWhen` | ai-agent/app/agents/base_agent.py:161-165 | a run is refused if and only if the latest text of the user is there and unsafe |
| `AgentTranscript.SafetyReadsLatestText` | ai-agent/app/agents/base_agent.py:487-503 | the text checked is that of the last user message that carries any, its text blocks joined by newlines |
| `AgentTranscript.StreamTold` | ai-agent/app/agents/base_agent.py:295-359 | a stream leaves, stores, runs and ends by position as a run does, but for its early stop |
| `StreamEvents.StreamHeard` | ai-agent/app/agents/base_agent.py:283-373 | a stream in full: the understanding, then per round the thinking, the texts that are not blank and the calls shown in pairs, then the ending for its reason, then the last tool input |
| `StreamEvents.ToolEventsByPosition` | ai-agent/app/agents/base_agent.py:318-337 | in any stream the i-th executed call is announced at 2i by its display name and answered at 2i + 1 by the first 200 characters of its result, and nothing follows but the call that breaks the stream off |
| `StreamEvents.RefusalHeard` | ai-agent/app/agents/base_agent.py:270-293 | a refused stream is the understanding and the refusal |
| `AgentRuns.RunAddsBoundedly` | ai-agent/app/agents/base_agent.py:163-241 | a run keeps its input as a prefix and adds at most twice the iteration limit; a refusal adds exactly one message and asks no model |
| `AgentRuns.SerializedIds` | ai-agent/app/agents/base_agent.py:506-527 | without raw tool blocks the stored reply carries exactly the executed calls' ids, in order, and no results |
| `AgentRuns.RoundPairing` | ai-agent/app/agents/base_agent.py:198-241 | a round's two messages answer each other if and only if the reply hides no raw tool block |
| `AgentRuns.RunRaisesExactlyWhen` | ai-agent/app/agents/base_agent.py:185-237 | a run raises if and only if some input, as its tool left it, is no dictionary or the model gives no answer |
| `AgentRuns.ListArgumentsRaise` | ai-agent/app/agents/base_agent.py:229 | a call whose input is a list raises and leaves the transcript unpaired |
| `AgentRuns.RunPairing` | ai-agent/app/agents/base_agent.py:185-241 | any run, returning or raising, keeps a paired transcript paired if and only if every reply is clean and every input is a dictionary |
| `AgentRuns.RawCallStaysUnanswered` | ai-agent/app/agents/base_agent.py:522-523 | one bare dictionary of a tool call ends a run with a call nobody answers |
| `AgentRuns.PromptsArePaired` | ai-agent/app/agents/base_agent.py:185-241 | while replies hide no bare tool block, every transcript shown to the model within a run is paired, even in a run that raises later |
| `StoredTurns.ClientIsClean` | ai-agent/app/llm/openai_gpt_client.py:201-226 | with a client of typed blocks, no run ever stores a bare tool block |
| `StoredTurns.SavedMessages` | ai-agent/app/routers/requirement_router.py:171-186 | what a turn saves reads from the cache as the very transcript of its run |
| `StoredTurns.ViewIsOfTheOps` | ai-agent/app/session/manager.py:129-182 | the turns, done as reads and writes of cache and rows, leave the list last saved, read back if the cache lost it since |
| `StoredTurns.RereadPairing` | ai-agent/app/db/repository.py:334-342 | a paired list comes back from its rows paired if and only if none of its texts parses to a list with a tool block |
| `StoredTurns.HistoryStaysPaired` | ai-agent/app/routers/requirement_router.py:171-186 | over any turns of any sessions, loaded, run, saved and expired, the stored history is paired throughout if and only if no expiry meets such a text |
| `StoredTurns.HarmlessTextsStayPaired` | ai-agent/app/routers/requirement_router.py:171-186 | it is paired throughout while no said text comes to such a list by repeated parsing |
| `StoredTurns.TextIsHarmlessExactlyWhen` | ai-agent/app/db/repository.py:334-342 | a text can be said in every conversation, whatever expires, if and only if no repeated parsing of it comes to such a list |
| `AgentRuns.StreamIsPrefixOfRun` | ai-agent/app/agents/base_agent.py:295-359 | the stream's transcript is a prefix of the plain run's, and equal if and only if it did not stop with a round and an answer still to come |
| `AgentRuns.StoppedMeansAsked` | ai-agent/app/agents/base_agent.py:335-359 | a stream stops early if and only if it did not raise and executed ask_clarification or generate_prd |
| `AgentRuns.StreamEqualsRunWithoutStops` | ai-agent/app/agents/base_agent.py:295-359 | without those two tools, streamed and plain run end alike |
| `AgentRuns.EachCallHasItsTwoEvents` | ai-agent/app/agents/base_agent.py:318-333 | the tool events of any stream are, call by call, one announcement followed at once by one result; only the call that breaks a stream off is announced without one |
| `AgentRuns.RunStoresResults` | ai-agent/app/agents/base_agent.py:208-241 | in any run, the results added to user messages are those of the executed calls, in order, with their texts, but for a round that an input broke off |
| `OpenAiWire.ConvertMessages` | ai-agent/app/llm/openai_gpt_client.py:136-185 | the two loops compute the flattened list with each run of mergeable messages joined by newlines; what that list says is read back in `WireReading` |
| `WireReading.WireReadsBack` | ai-agent/app/llm/openai_gpt_client.py:136-185 | one wire message for each sent block, in order, saying just that block: the text under its role, the call's id and name with arguments that parse to its input, the result's id and text; each stretch of one speaker's texts joined, and no more to join |
| `WireReading.WireKeepsAll` | ai-agent/app/llm/openai_gpt_client.py:136-185 | on the wire as sent, calls and results are the transcript's, in order and each as it was, and each role's texts joined are that role's texts, the system text first |
| `OpenAiWire.MergeMessages` | ai-agent/app/llm/openai_gpt_client.py:176-185 | merging in place equals joining each maximal run |
| `OpenAiWire.MergeIsIdempotent` | ai-agent/app/llm/openai_gpt_client.py:176-185 | merging leaves no mergeable neighbours and changes nothing when repeated |
| `OpenAiWire.MergeKeepsTraffic` | ai-agent/app/llm/openai_gpt_client.py:176-185 | merging keeps calls and results and their order among each other |
| `OpenAiWire.ConversionKeepsIds` | ai-agent/app/llm/openai_gpt_client.py:143-185 | the wire list carries the transcript's call ids and result ids unchanged and in order |
| `OpenAiWire.ConvertedResultsFollowCalls` | ai-agent/app/llm/openai_gpt_client.py:143-185 | from a paired transcript, every tool message comes after the message with its call |
| `OpenAiWire.ConvertedCallsAreAnswered` | ai-agent/app/llm/openai_gpt_client.py:143-185 | from a paired transcript, the wire's result ids are its call ids, in order |
| `Conversation.AssembledReplyIsClean` | ai-agent/app/llm/openai_gpt_client.py:201-226 | whatever chunks arrive, the assembled reply hides no bare tool block and its calls are those of the stream |
| `Conversation.TypedReplyTold` | ai-agent/app/llm/openai_gpt_client.py:207-226 | the loop sees each text as a text and each call with its id, name and input |
| `Conversation.EveryRequestAnswersItsCalls` | ai-agent/app/routers/requirement_router.py:171-186 | client, loop, stored history and translation together: unless an expiry met a text that parses to tool blocks, every request of the next turn answers its calls, in order, each after the call |
| `Conversation.HarmlessTextsReachTheWireAnswered` | ai-agent/app/routers/requirement_router.py:171-186 | so it does in every conversation of harmless texts |
| `Conversation.ForgedResultReachesTheWire` | ai-agent/app/db/repository.py:334-342 | a refused text that prints a tool result, an expiry, and the next request carries a result without a call |
| `StreamAssembly.StreamAndCollect` | ai-agent/app/llm/openai_gpt_client.py:92-119 | the accumulation equals, index by index, the last non-empty id and name and the joined arguments |
| `StreamAssembly.AddFragment` | ai-agent/app/llm/openai_gpt_client.py:107-118 | one fragment changes its own call only, and that as the reference says |
| `StreamAssembly.BuildResponse` | ai-agent/app/llm/openai_gpt_client.py:201-226 | text first if there is any, then the calls in ascending index order, and the stop reason |
| `StreamAssembly.AssembleReply` | ai-agent/app/llm/openai_gpt_client.py:92-134 | the returned reply is a function of the stream's per-index content alone |
| `StreamAssembly.CallPartsTold` | ai-agent/app/llm/openai_gpt_client.py:207-224 | one part for each call, by ascending index, with its id and name, and its input empty, parsed or kept raw |
| `StreamAssembly.OwnFragmentsTold` | ai-agent/app/llm/openai_gpt_client.py:106-118 | a call's fragments are those of its index, in order |
| `StreamAssembly.LastFilledTold` | ai-agent/app/llm/openai_gpt_client.py:108-114 | the last value there is and that is not empty, or nothing |
| `StreamAssembly.InterleavingDoesNotMatter` | ai-agent/app/llm/openai_gpt_client.py:98-119 | streams with the same fragments per call build the same reply |
| `StreamAssembly.SwapKeepsEachCall` | ai-agent/app/llm/openai_gpt_client.py:106-118 | swapping neighbouring fragments of different calls anywhere keeps every call's own sequence |
| `ClaudeMessages.CleanMessages` | ai-agent/app/llm/claude_client.py:134-154 | the loop computes the cleaned list |
| `ClaudeMessages.CleanOrder` | ai-agent/app/llm/claude_client.py:134-154 | for any list: not empty, user first, user last, no role twice in a row |
| `ClaudeMessages.CleanIsIdempotent` | ai-agent/app/llm/claude_client.py:134-154 | cleaning a cleaned list changes nothing |
| `ClaudeMessages.CleanKeepsText` | ai-agent/app/llm/claude_client.py:134-154 | between an opener and a closer added only where needed stands every given text, in order, joined by newlines within a stretch of one role |
| `ClaudeMessages.GroupsUnique` | ai-agent/app/llm/claude_client.py:134-154 | there is only one such joined list |
| `ClaudeMessages.PrepareRequest` | ai-agent/app/llm/claude_client.py:103-117 | the system messages, by position, are joined or defaulted, and every other message is sent, in order, each stretch of one role joined, between an opener and a closer added only where needed |
| `ClaudeMessages.SentAlternates` | ai-agent/app/llm/claude_client.py:103-154 | what is sent holds no system message and alternates from user to user, whatever roles the caller gave |
| `ProjectStates.SetStatusIsLocal` | ai-agent/app/pipeline/project_state.py:52-62 | a status change stays within its stage; the clock starts at the first running and stops at every end, and of the other fields those passed change |
| `ProjectStates.ProjectState.SetStageStatus` | ai-agent/app/pipeline/project_state.py:52-62 | the in-place change, over the whole state |
| `ProjectStates.ProjectState.AdvanceToNextStage` | ai-agent/app/pipeline/project_state.py:75-82 | requirement advances to design, design stays, any other current stage raises |
| `Pipeline.PipelineOrchestrator.InitProject` | ai-agent/app/pipeline/orchestrator.py:24-44 | an existing project is returned and not rewritten, a missing one is created and saved |
| `Pipeline.PipelineOrchestrator.StartStage` | ai-agent/app/pipeline/orchestrator.py:57-79 | accepted if and only if the guard passes; the stored state and rows in every case |
| `Pipeline.PipelineOrchestrator.ConfirmStage` | ai-agent/app/pipeline/orchestrator.py:81-100 | accepted if and only if the stage is running or awaiting and advancing does not raise; the stored state and rows in every case |
| `Pipeline.PipelineOrchestrator.GeneratePm` | ai-agent/app/pipeline/orchestrator.py:128-195 | refused unless requirement is confirmed; plan, no plan or error, with the stored state and rows in every case |
| `SoloRequests.SoloStarts` | ai-agent/app/pipeline/orchestrator.py:57-79 | run alone as a request of single reads and writes, from cache or database, starting a stage leaves the store its method promises |
| `SoloRequests.SoloConfirms` | ai-agent/app/pipeline/orchestrator.py:81-100 | the same for confirming a stage |
| `SoloRequests.SoloInitialises` | ai-agent/app/pipeline/orchestrator.py:24-44 | the same for initialising a project |
| `SoloRequests.SoloPlans` | ai-agent/app/pipeline/orchestrator.py:128-195 | the same for generating the plan |
| `SoloRequests.StartTold` | ai-agent/app/pipeline/project_state.py:64-73 | who may be started, and what starting changes |
| `SoloRequests.ConfirmTold` | ai-agent/app/pipeline/orchestrator.py:88-97 | when a stage may be confirmed, and what confirming changes |
| `SoloRequests.OperationsTold` | ai-agent/app/pipeline/orchestrator.py:24-100 | a refused operation leaves what was loaded, an accepted one its snapshot in cache and rows |
| `SoloRequests.PlanTold` | ai-agent/app/pipeline/orchestrator.py:145-184 | the plan is confirmed with its path, marked with its error, or left alone |
| `SoloRequests.SoloGenerates` | ai-agent/app/routers/design_router.py:32-66 | past the first save: with a document the stage awaits confirmation at its path, without one it stays running, and the streaming route saves what it held |
| `SoloRequests.RaisedGenerationStores` | ai-agent/app/routers/design_router.py:72-74 | a generation that raises leaves the store as it was |
| `SoloRequests.SoloRegenerates` | ai-agent/app/pipeline/orchestrator.py:68-79 | a stage already running is generated for without a save |
| `SoloRequests.SoloChats` | ai-agent/app/routers/requirement_router.py:166-188 | a chat turn leaves the requirement running at its sub-stage, and the other stages |
| `SoloRequests.SoloConfirmsPrd` | ai-agent/app/routers/requirement_router.py:224-231 | the document's confirmation leaves the requirement confirmed with its path |
| `SoloRequests.SoloDecomposes` | ai-agent/app/routers/requirement_router.py:300-308 | a decomposition first leaves the requirement running |
| `SoloRequests.SoloSplits` | ai-agent/app/routers/requirement_router.py:310-335 | its outcome confirms the requirement with tasks, or keeps it running |
| `SoloRequests.SoloFails` | ai-agent/app/routers/requirement_router.py:336-346 | its failure in the background marks the requirement with the error |
| `SoloRequests.SoloTriggersPm` | ai-agent/app/routers/requirement_router.py:22-75 | the triggered plan is stored as confirmed with its path |
| `SoloRequests.SplitSpawns` | ai-agent/app/routers/requirement_router.py:305-346 | a decomposition leaves its background task, and a confirmed split the plan's |
| `SoloRequests.SoloOpens` | ai-agent/app/routers/requirement_router.py:111-134 | the first chat stores the requirement as clarifying, then as it came out |
| `SoloRequests.SoloCreates` | ai-agent/app/routers/requirement_router.py:111-115 | without a state it stores a fresh one of its session before that |
| `Pipeline.RestoreUndoesSave` | ai-agent/app/db/repository.py:38-131 | restoring saved rows brings back every field of every stage, its two times as the date columns keep them |
| `Pipeline.RunKeepsInv` | ai-agent/app/session/manager.py:62-111 | every world reached by interleaved reads and writes, failed or not, keeps the stage invariant on cache, rows and held snapshots |
| `Pipeline.RequirementComesFirst` | ai-agent/app/pipeline/project_state.py:64-73 | in every schedule, wherever design or pm shows as begun, requirement was stored as confirmed earlier |
| `Pipeline.DesignFollowsItsOrder` | ai-agent/app/pipeline/orchestrator.py:57-100 | a design past running was stored as running, and requirement as confirmed no later than that |
| `DesignConfirmation.ConfirmedOnRequest` | ai-agent/app/pipeline/orchestrator.py:81-100 | in every schedule, a visible confirmed design means that a request to confirm it arrived, and then decided on a running or awaiting design that had been stored as running |
| `DesignConfirmation.RequestMayComeFirst` | ai-agent/app/pipeline/orchestrator.py:81-100 | a schedule whose confirming request arrives before any design was begun, and succeeds |
| `Pipeline.TaskNeverStarts` | ai-agent/app/routers/task_router.py:33 | in every schedule the task stage stays pending |
| `Pipeline.StaleSaveWins` | ai-agent/app/routers/requirement_router.py:180-196 | a chat turn's save sets every other stage back to what it had loaded |
| `Pipeline.StaleSaveErasesDesign` | ai-agent/app/routers/requirement_router.py:180-196 | a concrete schedule that stores a running design and then loses it |
| `DesignLoss.OneStepLoses` | ai-agent/app/session/manager.py:62-111 | a cached design vanishes in one step if and only if a write or refill takes effect with a snapshot that does not know of it |
| `DesignLoss.SecureStep` | ai-agent/app/session/manager.py:62-111 | a state in which nothing threatens the design stays so in every step that does not fail to read a project being created |
| `DesignLoss.DesignIsKeptExactlyWhen` | ai-agent/app/pipeline/orchestrator.py:24-100 | after any run, no continuation with reliable reads takes the design out of the cache if and only if the state reached is of that kind |
| `DesignLoss.FailedReadErasesAll` | ai-agent/app/session/manager.py:92-111 | from any state, one failed database read lets initialisation store a fresh project over cache and rows |
| `SessionHistory.SessionManager.SaveMessages` | ai-agent/app/db/repository.py:300-324 | a session's rows are replaced by the encoded list, other sessions' rows stay |
| `SessionHistory.SessionManager.GetMessages` | ai-agent/app/db/repository.py:326-342 | reads back the decoded rows of the session, in order |
| `SessionHistory.SessionManager.SaveHistory` | ai-agent/app/session/manager.py:129-145 | cache and rows both take the list |
| `SessionHistory.SessionManager.GetHistory` | ai-agent/app/session/manager.py:147-175 | the cached list if there is one, else the rows, which then refill the cache |
| `SessionHistory.SessionManager.AppendToHistory` | ai-agent/app/session/manager.py:177-182 | what a read would give, extended and saved |
| `SessionHistory.RowsRoundTrip` | ai-agent/app/db/repository.py:300-342 | rows restore the list if and only if none of its texts parses as JSON |
| `SessionHistory.RowsTold` | ai-agent/app/db/repository.py:312-324 | one row for each message, with its role, and its content as the text it is or in print |
| `SessionHistory.ReadsShowTheView` | ai-agent/app/session/manager.py:129-182 | after any run over any sessions, with any texts, a read gives the list last written, read back from its rows if an expiry came since |
| `SessionHistory.ReadsAreFaithfulExactlyWhen` | ai-agent/app/session/manager.py:129-182 | every read along a run gives the last saved list plus all later appends if and only if every expiry finds no text that parses as JSON |
| `SessionHistory.ReadsSeeTheLastWrite` | ai-agent/app/session/manager.py:129-182 | in particular while no text written in the run parses as JSON |
| `SessionHistory.ExpiryShowsExactlyWhen` | ai-agent/app/db/repository.py:330-342 | an expiry right after a save changes what is read if and only if some text parses as JSON |
| `SessionHistory.PrintedTextChanges` | ai-agent/app/db/repository.py:334-342 | the print of any value is such a text: the value itself comes back |
| `JsonText.CodecExists` | ai-agent/app/db/repository.py:312-342 | there is a printer and parser that meets what is assumed of one |
| `RankFusion.FuseRanks` | ai-agent/app/rag/retriever.py:238-286 | the three loops compute the fused ranking |
| `RankFusion.FusionIsRanking` | ai-agent/app/rag/retriever.py:258-286 | each found id once, with its first hit and the sum of its shares, scores non-increasing, ties in first-seen order |
| `RankFusion.FirstSeenTold` | ai-agent/app/rag/retriever.py:262-276 | a document whose first place is earlier is seen first |
| `RankFusion.FirstHitTold` | ai-agent/app/rag/retriever.py:266-267 | a document keeps the data of its first place |
| `RankFusion.ScoreAddsUp` | ai-agent/app/rag/retriever.py:262-275 | every position a document has adds its share, and nothing else does |
| `RankFusion.SwapKeepsScores` | ai-agent/app/rag/retriever.py:258-286 | swapping the searches changes no score and no membership |
| `RankFusion.AgreementComesFirst` | ai-agent/app/rag/retriever.py:238-286 | with short enough repeat-free lists, what both found precedes what one found |
| `RankFusion.ShortListsAgree` | ai-agent/app/config.py:99-101 | lists of at most k + 1 hits are short enough |
| `RankFusion.AgreementCanLose` | ai-agent/app/rag/retriever.py:258-286 | when the length condition fails, two lists sharing only their last hits break the order |
| `RankFusion.AgreementWinsExactlyWhen` | ai-agent/app/rag/retriever.py:258-286 | the order holds in all repeat-free lists of two lengths if and only if the length condition holds |
| `RankFusion.OneLongerFails` | ai-agent/app/rag/retriever.py:258-286 | the condition fails at k + 2 |
| `RankFusion.CutKeepsAgreement` | ai-agent/app/rag/retriever.py:98-106 | if the cut keeps a document only one search found, it keeps all that both found |
| `RankFusion.RetrieveIsPrefix` | ai-agent/app/rag/retriever.py:98-106 | the results are the first of the fused ones, or of the vector ones without keyword hits, as many as asked for or exist |
| `TextRepair.AgentMessageIsDeclarative` | ai-agent/app/agents/requirement_agent.py:84-98 | for any message: no question mark, and empty or ended by one of three terminators |
| `TextRepair.AgentMessageTold` | ai-agent/app/agents/requirement_agent.py:84-98 | the repair in full: question marks out, each fragment replaced where it stands, the dangling end off, spaces stripped, a full stop supplied where no terminator stands, and nothing else |
| `TextRepair.SecondApplication` | ai-agent/app/agents/requirement_agent.py:84-98 | what a second application does, in both cases |
| `TextRepair.IdempotentExactlyWhen` | ai-agent/app/agents/requirement_agent.py:84-98 | idempotent on a message if and only if the message, without question marks and but for what dangles, does not end in the bare fragment with no comma at once behind it |
| `TextRepair.OneMessageFails` | ai-agent/app/agents/requirement_agent.py:84-98 | three characters on which a second application changes the result |
| `TextRepair.TwoApplicationsSuffice` | ai-agent/app/agents/requirement_agent.py:84-98 | a third application never changes anything |
| `TextRepair.DropEarlierMarks` | ai-agent/app/agents/requirement_agent.py:106-113 | the back-to-front deletions by index remove exactly the question marks before the last |
| `TextRepair.QuestionHasOneMark` | ai-agent/app/agents/requirement_agent.py:101-117 | at most one question mark, one if and only if there was any, never before a comma |
| `TextRepair.QuestionIsIdempotent` | ai-agent/app/agents/requirement_agent.py:101-117 | repairing a repaired question changes nothing |
| `TextRepair.QuestionIsSubsequence` | ai-agent/app/agents/requirement_agent.py:101-117 | the repaired question is had from the text by deletions only |
| `TextRepair.QuestionTold` | ai-agent/app/agents/requirement_agent.py:101-117 | the repair in full: cut after the first question mark before a comma, all marks but the last out, spaces stripped, and nothing else |
| `TextRepair.ClarificationInput.SanitizeAskClarification` | ai-agent/app/agents/requirement_agent.py:120-129 | the message and every question are rewritten in place, also when a question is listed twice |
| `VibeLevels.LevelIsRank` | ai-agent/app/agents/rating_agent.py:58-66 | the table search finds the last row whose minimum is reached |
| `VibeLevels.PointsNeededAreExact` | ai-agent/app/agents/rating_agent.py:69-78 | the reported points reach the next level, one fewer stays in the current one; none are reported from the top level only |
| `VibeLevels.RoundsToNearestEven` | ai-agent/app/agents/rating_agent.py:55 | the rounding is to a nearest integer, and to the even one of two |
| `VibeLevels.CalculateVibePower` | ai-agent/app/agents/rating_agent.py:48-55 | the loop computes the rounded, capped, weighted sum |
| `VibeLevels.PowerTold` | ai-agent/app/agents/rating_agent.py:39-55 | the power as one formula of the five scores |
| `VibeLevels.PowerIsMonotone` | ai-agent/app/agents/rating_agent.py:39-66 | raising any scores never lowers the power or its level |
| `VibeLevels.PowerRange` | ai-agent/app/agents/rating_agent.py:48-66 | scores in 0..100 give 0..749 and no level above T5 |
| `VibeLevels.CapIsReached` | ai-agent/app/agents/rating_agent.py:55 | full marks give 750 before the cap, which is reached and needed |
| `VibeLevels.RatingAgent.EvaluateSkills` | ai-agent/app/agents/rating_agent.py:162-177 | the model's figure is kept while within 20 of the computed one, else replaced |
| `VibeLevels.KeptLevelIsCapped` | ai-agent/app/agents/rating_agent.py:58-66 | whatever figure is kept, the level is T1 to T5 |
| `PointsLedger.RatingRepository.UpdateVibePower` | ai-agent/app/db/repository.py:733-747 | the stored power moves by the delta, held at zero |
| `PointsLedger.RatingRepository.SyncProfileToTeam` | ai-agent/app/db/repository.py:768-814 | exactly the team rows of the provider take the profile |
| `PointsLedger.RatingRepository.AdjustPoints` | ai-agent/app/routers/rating_router.py:533-587 | response with both powers, both levels and whether they differ, profile, log entry and team rows, in both cases |
| `PointsLedger.ClampedClosedForm` | ai-agent/app/db/repository.py:741-747 | the clamped running total is the larger of the plain total and the best suffix |
| `PointsLedger.StoredPowerFollowsTheLog` | ai-agent/app/routers/rating_router.py:542-566 | after any serial run the stored power is that closed form of the provider's own log, and level and weight match it |
| `DerEncoding.EncodeDerTlv` | admin-web/src/utils/crypto.ts:109-131 | the filled array is header and value |
| `DerEncoding.WrapPkcs1InSpki` | admin-web/src/utils/crypto.ts:90-107 | the filled array is the nested structure |
| `DerEncoding.LengthRoundTrip` | admin-web/src/utils/crypto.ts:112-126 | length octets decode to the length below 2^24 and to its remainder from there |
| `DerEncoding.TlvRoundTrip` | admin-web/src/utils/crypto.ts:109-131 | an encoding decodes to its parts with any trailing octets if and only if the value is short enough and the tag fits an octet |
| `DerEncoding.EncodingsArePrefixFree` | admin-web/src/utils/crypto.ts:109-131 | no encoding is a proper prefix of another |
| `DerEncoding.ShortestForm` | admin-web/src/utils/crypto.ts:112-126 | the length form is definite, the shortest, and the only one as short (sections 8.1.3 and 10.1 of X.690) |
| `DerEncoding.DecodedIsCanonical` | admin-web/src/utils/crypto.ts:109-131 | whatever decodes is what the encoder would have written |
| `DerEncoding.WrapRoundTrip` | admin-web/src/utils/crypto.ts:90-107 | the wrapped key decodes to the key if and only if the outer payload is below 2^24, which is a key below 2^24 - 21 octets |
| `TableLoader.TableLoader.LoadData` | admin-web/src/composables/useTable.ts:24-34 | a load sends page, size and its filters as the newest request and shows nothing new |
| `TableLoader.TableLoader.Resume` | admin-web/src/composables/useTable.ts:35-50 | the newest answer shows its rows and total or their number, a failure nothing and mostly a complaint, a superseded one nothing |
| `TableLoader.TableLoader.HandlePageChange` | admin-web/src/composables/useTable.ts:52-55 | sends the new page with size and filters as they were |
| `TableLoader.TableLoader.HandleSizeChange` | admin-web/src/composables/useTable.ts:57-61 | sends the new size and the first page, with filters as they were |
| `TableLoader.StepTold` | admin-web/src/composables/useTable.ts:24-66 | every event of a run does just what its handler does |
| `TableLoader.LoadingMeansNewestOpen` | admin-web/src/composables/useTable.ts:24-66 | after any events, loading if and only if the newest request is unsettled, and it was sent with what the table shows |
| `TableLoader.SupersededChangesNothing` | admin-web/src/composables/useTable.ts:35-39 | a superseded request settles unseen |
| `TableLoader.OnlyNewestMatters` | admin-web/src/composables/useTable.ts:24-50 | table, total, loading and complaints depend on the newest request's first answer only |
| `TableLoader.OrderDoesNotMatter` | admin-web/src/composables/useTable.ts:24-50 | whatever order older answers arrive in, the table ends the same |
| `InviteCodes.InviteTx.ConsumeWithTx` | server/internal/repository/invite_repo.go:48-76 | which error, or which row, and what is stored, in every case |
| `InviteCodes.CheckTold` | server/internal/repository/invite_repo.go:57-66 | a code passes if it is not disabled, not past its expiry and not used up, and exhaustion is the last reason given |
| `InviteCodes.RunKeepsInv` | server/internal/repository/invite_repo.go:48-76 | every interleaving of lock, check, update, commit and rollback keeps the lock and row invariant |
| `InviteCodes.ConsumedAtMostOnce` | server/internal/repository/invite_repo.go:67-74 | at most one committed transaction consumes a code, whatever its limit |
| `InviteCodes.RowTellsWhetherConsumed` | server/internal/repository/invite_repo.go:48-76 | a row is used up if and only if a transaction consumed it; failed, rolled back and open attempts leave it |
| `InviteCodes.NextAttempt` | server/internal/repository/invite_repo.go:48-76 | a new attempt on an unlocked code succeeds if and only if the checks pass and nobody consumed it |

## Left out

- Model calls, prompts, embeddings, search engines, object storage, Redis and SQL engines: arbitrary functions, maps, or transactions under a row lock.
- HTTP handlers, routing, request schemas, middleware and the user interfaces, except for the order of loads, status changes and saves.
- The injection detector and the parsing and printing of JSON: parameters. Of them only that parsing undoes printing, and that a printed text is a quoted text, is assumed.
- The other provider client with the same conversion, the provider fallback, match scoring, document versions and formatting helpers: they would only add easy members.
- `Pipeline.RestoreUndoesSave`: does not cover `current_stage`, which a restore infers from the order of database rows, nor how date columns shorten or drop a time; every restore may choose both freely here.
- Title, version and modification time of a project state: no guard reads them.
- `Pipeline.PipelineOrchestrator.GeneratePm`: what the agent and the document store do comes in as an outcome and a text; a missing requirement document counts as no plan, and milestones are not parsed.
- `AgentLoop.ToolUseAgent.RunStream`: display names are a parameter, the done event carries the last tool input only, without durations; a client that disconnects in mid-stream is not modelled.
- `StoredTurns.HistoryStaysPaired`: turns of the plain loop, one after another in a session; what the streaming routes store of an interrupted stream, and two turns of one session at once, are not modelled.
- `StoredTurns.RereadPairing`: a restored block whose id or text is not itself a text is read as having an empty one, and its other fields are not looked at.
- Typed reply blocks that call themselves tool results: no client has them, and the type of other blocks leaves them out.
- `ClaudeMessages.CleanMessages`: works on values; the loop extends the first message of a run in place, which a caller who keeps that message would see. `generate` passes fresh messages.
- `RankFusion.FuseRanks`: scores are exact fractions; floating-point sums and the rounding of the reported score to six places are not modelled.
- `VibeLevels.CalculateVibePower`: scores are integers; the weights are exact eighths, so no rounding occurs before the last step.
- `TextRepair.ClarificationInput.RepairQuestions`: recursion over the list where the source has a loop.
- `PointsLedger.RatingRepository.AdjustPoints`: serial adjustments; two at once on one profile are not modelled, and the log entry's reason and action are carried along only.
- `SessionHistory.SessionManager.SaveHistory`: the database works; its failures, which the source logs and ignores, are not modelled, nor is `delete_history`, which drops only the cached copy.
- `InviteCodes.ConsumedAtMostOnce`: other writers of the invite rows, such as the admin's editing, are not part of this model.
- RSA encryption and base64 in the admin client are not part of this model.
