# Verified model of the chat backend

This project models the parts of the Python backend that hold real state: the
ReAct loop of the chat service with its context window, the stream transducers
around a language model, and the stores and protocols beside them (wiki page
tree, refresh tokens, chunked uploads, the MCP client, the rate limiter), plus
the retrieval arithmetic. Each file is one component.

| file | component |
|---|---|
| `Wrappers.dfy`, `Orders.dfy` | shared result shapes; ascending lists |
| `Messages.dfy` | chat messages; the pairing law (`OrphanFree`) and its strict form (`Blocks`) |
| `ToolHelpers.dfy` | orphan pass, pair-safe split, compaction, per-turn tool limits |
| `Tokens.dfy`, `Tokenizer.dfy` | trimming to a token budget; the character-ratio token count |
| `History.dfy` | the context-window ladder: compact, summarise, trim |
| `ThinkFilter.dfy` | the `<think>` splitter |
| `Text.dfy`, `Sources.dfy`, `ChatMemory.dfy` | white space, citation ranks, what storage keeps |
| `ChatRun.dfy` | what a run of the loop is: event automaton, tool log, rounds, and their laws |
| `ChatReply.dfy` | one streamed model reply: what it says and what of it is shown, chunk by chunk |
| `ChatService.dfy` | `generate` as imperative code, proved to produce such a run |
| `ChatTranscript.dfy` | the events of a turn as a function of its record, and what they say |
| `ChatCrash.dfy` | the one turn that ends without a closing event |
| `ChatSession.dfy` | the laws of a turn and of whole conversations; `generate_full`; regenerate |
| `ChatOutcome.dfy` | the record of a turn is determined by the world |
| `ChatInput.dfy` | what a turn starts from, what its model is handed and what becomes of its replies, row by row |
| `JsonScan.dfy` | the brace scanner as the inverse of RFC 8259 texts |
| `WikiPages.dfy` | the page tree under create, duplicate, delete, move and patch |
| `RefreshTokens.dfy` | refresh-token rotation with reuse detection |
| `Uploads.dfy` | chunked upload and reassembly |
| `McpClient.dfy` | matching JSON-RPC replies to waiting callers |
| `RateLimiter.dfy` | the fixed-window limiter |
| `ToolCallBuilder.dfy` | streamed tool-call fragments |
| `SplitText.dfy` | overlapping windows over a document |
| `Fusion.dfy` | reciprocal rank fusion and the end of a search |

The model, the tools, the summariser, the abort flag, the database and the
search index are parameters that may answer in any way at every call
(`ChatService.World`, `History.Summarizer`). `ChatService.Generate` returns a
ghost record of the turn. `RunOk` says what that record accounts for:
stored rows, model calls and dispatches, what the world answered, the very poll,
write or reply at which the turn ended, and every event: the stream is
`ChatTranscript.Transcript` of the record, no more and no less
(`ChatTranscript.EventsAreTranscript`). Every law of a turn is a lemma about it,
and no two records of a turn differ in what was shown, stored, handed out or how it
ended (`ChatOutcome.TurnIsDetermined`), so none can leave anything out.
`ChatSession.Converse` serves any sequence of questions and regenerations and
returns one such record for each request, every one starting from the memory the
one before left; `ConversationOrphanFree` composes the whole chat stack over them:
stored memory and every list handed to a model stay orphan-free.

Where comments and code disagree, the code is modelled:

- `service/chat/tokens.py:192` promises that the last message always stays.
  `Tokens.TrimmedCanLoseTheLastRow` gives a list where it does not and
  `Tokens.TrimmedLastRow` says, for any list, exactly when it does.
- `service/chat/service.py:527` says that an abort drops the partial iteration.
  The assistant row is stored before the abort check, so an abort can leave its
  calls unanswered: `ChatSession.InterruptedTurn` is such a turn and
  `ChatSession.StoredBlocksIff` says exactly which polls and writes cause one.
- `service/chat/_tool_helpers.py:180-222` promises a split that never separates
  a tool row from its request. It counts declarations that come too late, so a
  repeated id defeats it (`ToolHelpers.SplitCanOrphanARepeatedId`);
  `ToolHelpers.SplitOrphansIff` and `ToolHelpers.SplitAlwaysSafeIff` say exactly when.
- `service/knowledge/pgvector.py:125-129` thresholds fused scores, which for
  two rankings never exceed 2/61 when neither lists a (title, source, content) key
  twice: `Fusion.HighThresholdHidesAll`. A ranking that repeats a key credits it twice.
- `api/routers/wiki.py:590-591` writes a parent unchecked: `WikiPages.PageStore.UpdatePage`
  says exactly when the tree survives, and when pages stay in their parent's wiki;
  `WikiPages.PatchCanMakeACycle` shows that the tree need not.
- `api/routers/wiki.py:674` says that moving across wikis invalidates the parent
  reference; so it does those of the page's children, which are kept:
  `WikiPages.PageStore.MovePage` says exactly when pages remain in their parent's wiki.
- `service/platform/redis.py:196` calls cleanup free; a lost EXPIRE can block its
  key for good: `RateLimiter.RecoversIff` says exactly when a key recovers.
- `service/platform/redis.py:211-213` announces the remaining life of the window;
  rounded to whole seconds that can be too short: `RateLimiter.RetryCanBeEarly` is
  such a run and `RateLimiter.RetryAfterIsSoundIff` says exactly when.
- `service/chat/service.py:755` asserts that a registry is there once the model asks
  for tools; without one a model that asks unprompted ends the turn with no done or
  error event: `ChatCrash.CrashingTurn` is such a turn and `ChatCrash.CrashIff` says
  exactly which turns do.

## Model

| member | source | states |
|---|---|---|
| ChatSession.ConversationOrphanFree | service/chat/service.py:509-942 | Over every conversation - any questions and regenerations, models, tools, summarisers, budgets, failures and abort timing - stored memory stays orphan-free and so does every list handed to a model |
| ChatSession.Converse | service/chat/service.py:509-942 | Serving requests one after the other gives one record of a whole turn for each, starting from the memory the one before left; the events shown, the final memory and the lists handed out are those of the records, and the lists and the memory are orphan-free |
| ChatOutcome.TurnIsDetermined | service/chat/service.py:509-942 | Two records of the same request on the same memory in the same world agree on the events shown, the rounds stored, the list handed to every model call and the way the turn ended |
| ChatOutcome.ConversationIsDetermined | service/chat/service.py:509-942 | So a conversation shows the same events, leaves the same memory and hands out the same lists whoever keeps its record |
| ChatSession.Serve | api/routers/chat_stream.py:183-206 | A question is answered on the memory found; regenerating drops everything behind the last question and answers that question again without storing it twice, and runs nothing when there is none; memory is then what the recorded turn left |
| ChatInput.RequestRuns | api/routers/chat_stream.py:183-206 | Asking runs the turn asked for on the memory found; regenerating answers the last user row again on the memory up to it, with tools and without storing it; without one it does nothing |
| ChatService.Generate | service/chat/service.py:509-942 | For every behaviour of the world a turn appends exactly the question and the rows of its rounds, and its record pins down every event, model call, dispatch and result, and the poll, write or reply at which it ended |
| ChatTranscript.EventsAreTranscript | service/chat/service.py:509-942 | The stream is exactly what its record calls for: the opening thoughts, the retrieval and the automatic search, then of each round its reply as it was released, the fallback of a blank one and its calls with their results, then what was heard of a reply that was not stored, then the closing event |
| ChatTranscript.TurnTells | service/chat/service.py:509-942 | So of every turn, however it ended: the calls and results shown are those of its log in order, the hits those the search found, the stream closed unless the turn crashed |
| ChatTranscript.ShownIsSpoken | service/chat/service.py:392-452 | The text shown is what the stored rounds said, followed, when a model call stored nothing, by a beginning of its answer or by the whole of a blank one and the fallback |
| ChatService.StreamLlmRound | service/chat/service.py:372-452 | The events shown are, chunk by chunk, its thinking and then the pieces of its text the splitter releases, and at the end the flush; a failing model leaves out the flush; text, thinking, tool calls and usage are the reply's, and an abort ends the stream before that chunk |
| ChatReply.ReplyIsShownWhole | service/chat/service.py:409-452 | However the model cuts its reply into chunks, the pieces shown are the one-shot split of its whole text |
| ChatReply.ShownInTime | service/chat/service.py:409-440 | After every chunk everything has been shown that no later text could change, and nothing else |
| ChatReply.ReplyText | service/chat/service.py:409-452 | The token events of a whole reply spell its text outside think tags |
| ChatReply.AnswerIsOutsideTags | service/chat/_think_filter.py:36-65 | Cut the text of a reply at its tags: the answer shown is what lies outside them, and what lies inside is shown as thought |
| ChatReply.NextChunk | service/chat/service.py:409-435 | A chunk shows its own thinking and then pieces of the split text; its calls and thinking are appended to the reply's and a usage it reports replaces the last |
| ChatService.HandleCall | service/chat/service.py:756-813 | A requested call is announced, then skipped by cap, per-tool limit or duplicate key or else dispatched, and its own result follows, these three events and no others; the ledger, its count of dispatches included, stays in step with the log |
| ChatService.AnswerCalls | service/chat/service.py:756-829 | The calls of a row are answered in order, each shown and then stored; a stop comes from the abort poll of the next call or the write of its result and from nothing else |
| ChatService.CallsAreShown | service/chat/service.py:760-813 | Each handled call shows three events and no others: the announcement with its name, the call, its result |
| ChatService.ReactLoop | service/chat/service.py:685-830 | Each iteration extends the record by one round handed the fitted list; the loop ends with a tool-free answer, an early stop, or its steps used up |
| ChatService.Synthesize | service/chat/service.py:831-887 | When the steps are used up one more call without tools produces the final row |
| ChatService.AutoWebSearch | service/chat/service.py:643-683 | The automatic search is the first entry of the tool log and joins the prompt as a whole block |
| ChatInput.AutoSearchIs | service/chat/service.py:643-664 | The automatic search runs exactly when tools are armed, web_search is registered and the question wants it, with the built arguments, as the first dispatch |
| ChatService.Prepare | service/chat/service.py:560-641 | Before the loop a turn fails with the first thing that goes wrong, in the order things are tried, having shown what came before, and stores nothing; else it has stored the question and built the prompt from prelude, compacted history, question and search |
| ChatInput.EarlyEnds | service/chat/service.py:555-608 | A turn fails before its loop with the first of these and stores nothing: abort, unreadable memory, abort before the search, failed search, failed write of the question; otherwise it reports exactly what the search found |
| ChatInput.ConversationReachesModel | service/chat/service.py:628-640 | Without a window, or when the offered list fits, the model is handed one row for each stored row, in one piece and in order, with the stored role, calls, call id and content (a tool row's payload as compacted), only system rows before and the new question right behind |
| ChatInput.HandedFrom | service/chat/service.py:628-703 | Every model call is handed the fitted form of prelude, stored conversation, question, automatic search, rounds so far and, once the steps are used up, the nudge |
| ChatInput.QuestionReachesModel | service/chat/service.py:636-703 | However small the budget, a first call that offers tools and follows no automatic search is handed the question as its last row, a stored one that is answered again included |
| ChatInput.RowsSpell | service/chat/service.py:728-829 | A round adds what the model said and, for each answered call, a tool row with the result, the call's id and its name |
| ChatInput.RoundIsReply | service/chat/service.py:685-739 | Each stored round is the model's reply to its list: thinking, calls and answer text, the fallback for a blank answer that asks for nothing, and tools offered exactly when armed and until min(max_steps, limit) steps are used up |
| ChatInput.CallIsAnswered | service/chat/service.py:756-813 | Every handled call is judged by what was handled before it and holds the result of its own dispatch, the next of the turn, or the notice for why it was skipped |
| ChatInput.CompletedUndisturbed | service/chat/service.py:685-942 | A turn completes only if no poll it made saw an abort, no write of it failed and its last reply asked for nothing |
| ChatInput.RoundCounts | service/chat/service.py:685-829 | A round polls once before its call, unless that is the last one without tools, once for each chunk and once for each call, and writes its row and each result |
| ChatInput.StopHasItsCause | service/chat/service.py:555-942 | A turn stops only for an abort, a failed write, unreadable memory, a failed search, or a model that failed with that very code |
| ChatRun.ActIsRight | service/chat/service.py:770-802 | A call is over the cap by its position, over its limit once web_search ran or web_fetch ran twice, a duplicate once its name and canonical arguments ran, and dispatched otherwise; the first that applies counts |
| ChatRun.DuplicateIsEqual | service/chat/_tool_helpers.py:29-35 | As long as names hold no colon, a call is skipped as a duplicate only if one with equal name and equal canonical arguments ran |
| ChatSession.StreamShape | service/chat/service.py:685-942 | Every turn emits exactly one done or error event, last, and every tool call is followed at once by its own result, unless no registry is attached and the first reply asks for a tool; so always with a registry, or with a model that asks only for what it is offered; it is done exactly on success |
| ChatCrash.CrashIff | service/chat/service.py:737-755 | A turn ends by the failed assertion exactly when no registry is attached, nothing fails before the loop, a step is allowed, and the first reply arrives, asks for a tool and is stored |
| ChatCrash.CrashingTurn | service/chat/service.py:737-755 | Running a turn with no registry and a model that asks anyway ends so, and its stream has no closing event |
| ChatRun.ClosedMeansWellShaped | service/chat/service.py:756-802 | The event automaton that the loop is proved against accepts exactly the well-shaped streams |
| ChatSession.TurnBounds | service/chat/service.py:547-554 | The model calls made are at most one more than max_steps, and one more than what the request allows; dispatches are at most cap per round plus one; no key is dispatched twice; web_search runs at most once, web_fetch at most twice |
| ChatRun.NeverRunTwice | service/chat/service.py:791-802 | Two dispatched calls of a turn never share name and key-sorted arguments |
| ChatRun.LimitsHold | service/chat/_tool_helpers.py:38-44 | In any turn a limited tool is dispatched at most as often as its limit |
| ChatRun.DispatchBound | service/chat/service.py:741-778 | Dispatches of a turn are at most rounds times cap plus the automatic search |
| ChatSession.HandedListsOrphanFree | service/chat/service.py:694-703 | If stored memory was orphan-free so is the list handed to each model call of the turn, also of one that failed or was aborted; no condition on ids |
| ChatSession.HandedListsBlocks | service/chat/service.py:694-703 | With non-empty ids whole blocks in memory mean whole blocks in every list handed to a model |
| ChatSession.HandedListsFit | service/chat/service.py:272-316 | The list handed to each model call is the fitted list of prompt, rows so far and nudge; it fits the input budget or is at most a leading system row and the last row of the list it was fitted from, which stays out when it is a tool row without an id |
| ChatSession.StoredOrphanFree | service/chat/service.py:728-829 | A turn leaves memory orphan-free even when it fails or is aborted midway |
| ChatSession.StoredBlocksIff | service/chat/service.py:728-829 | Memory made of whole blocks stays so exactly when the world does not interrupt the answering of the last stored row: no abort at the poll before one of its calls, no failed write of one of its results, and a registry to run them with |
| ChatSession.AbortLeavesCallsUnanswered | service/chat/service.py:756-759 | With a model that asks for one tool and an abort at the poll before it runs, every turn leaves its call unanswered in memory |
| ChatSession.InterruptedTurn | service/chat/service.py:756-759 | Running such a turn leaves memory orphan-free but not whole blocks |
| ChatSession.StreamMatchesStorage | service/chat/service.py:715-727 | On success the token text is the stored assistant text in order, except that a blank final round is stored as the fallback alone |
| ChatSession.SourcesAgree | service/chat/service.py:804-806 | On success the cited ranks are 1..n, every stored row cites a prefix of them, and the usage announced is the last one a round's model reported |
| ChatInput.UsageIsLastReported | service/chat/service.py:709-712 | The usage of a turn is what the last round that reported any reported |
| ChatRun.RanksAreConsecutive | service/chat/_sources.py:81-97 | However tool results add sources, the ranks gathered are 1..n at all times |
| ChatRun.CitedSpell | service/chat/_sources.py:81-97 | A turn cites the payloads of its hits and then those each tool result brought, in order, numbered through |
| ChatSession.Aggregate | service/chat/service.py:989-1036 | Folding a closed stream gives its text, last retrieval, tool calls, results, and its done data or error code |
| ChatSession.GenerateFull | service/chat/service.py:944-1049 | The aggregated reply has the text the rounds said and were heard to say, the hits found, the tool calls and results of the log matched position by position, the usage and sources of a turn that succeeded and the error code of one that did not |
| ChatSession.RewindUndoesTurn | api/routers/chat_stream.py:189-206 | Rewinding to the last question removes everything a turn stored after it, however the turn ended |
| ChatMemory.ChatMemory.RewindToUser | api/routers/chat_stream.py:189-206 | Deletes rows from the end until a user row is last and returns its text, or finds no such row |
| ChatMemory.StorageRoundTrip | service/memory/chat_memory.py:33-70 | A stored message comes back with role, content, calls, call id and sources; thinking is lost and a tool row's name becomes generic |
| ChatMemory.StorageKeepsShape | service/memory/chat_memory.py:55-70 | Storing and loading a list preserves everything pairing depends on |
| ChatMemory.ParseToolCalls | service/memory/chat_memory.py:33-52 | Malformed stored calls are skipped and the others keep their order |
| ChatMemory.CallsReadBack | service/memory/chat_memory.py:33-52 | Reading stored calls goes entry by entry, in order: an object with id and name gives its call, with empty arguments if none are there, anything else nothing |
| History.FittedOrphanFree | service/chat/service.py:272-316 | Unchanged, compacted, summarised, trimmed or with a failed summary, an orphan-free list stays orphan-free |
| History.FittedKeepsBlocks | service/chat/history.py:103-157 | On every path whole blocks stay whole blocks |
| History.FittedOverflowIsLastRow | service/chat/service.py:272-316 | For any list and any monotone token count a list that fits is returned unchanged; otherwise the result fits or is at most a leading system row and the last row of the list, which is not kept when it is a tool row with no or an empty id |
| History.FitToBudget | service/chat/service.py:298-316 | The ladder computes the function those laws are about |
| History.FittedExactly | service/chat/service.py:298-316 | A list that fits the input budget is returned as it is, else compacted, and trimmed if that does not do and there is no summariser |
| History.SummarisedExactly | service/chat/history.py:103-157 | When compaction does not do and the summariser answers about the rows before the pair-safe cut, the result is the leading system row, a system row ending in exactly what it said, and all the rows behind the cut, up to the orphan pass, trimmed if that does not fit; without an answer the list is trimmed |
| History.QuestionStays | service/chat/history.py:103-157 | On every path a last row that is no tool row stays the last row, unchanged, whether or not the result fits |
| ToolHelpers.DropOrphanToolMessages | service/chat/_tool_helpers.py:151-177 | Keeps exactly the rows that are no tool rows or answer an id declared before |
| ToolHelpers.KeptRows | service/chat/_tool_helpers.py:151-177 | The rows kept are, in their order, exactly those that are no tool rows or answer by a non-empty id a call of an earlier row |
| ToolHelpers.KeepGroundedOrphanFree | service/chat/_tool_helpers.py:151-177 | Whatever goes in, the orphan pass returns an orphan-free list |
| ToolHelpers.KeepGroundedIdentity | service/chat/_tool_helpers.py:151-177 | It leaves orphan-free lists with non-empty ids unchanged, so it is idempotent there |
| ToolHelpers.PairSafeRecentSplit | service/chat/_tool_helpers.py:180-221 | The halves concatenate to the list and the cut is the largest safe one at or left of n minus keep_recent |
| ToolHelpers.SplitKeepsBlocks | service/chat/_tool_helpers.py:180-253 | Both halves of whole blocks are whole blocks even when ids repeat across blocks |
| ToolHelpers.SplitMovesLessThanOneBlock | service/chat/_tool_helpers.py:215-221 | The cut moves left by less than one block |
| ToolHelpers.SplitOrphansIff | service/chat/_tool_helpers.py:180-253 | The right half of an orphan-free list has an orphan exactly when an id is declared left of the cut, answered right of it and declared again only after that |
| ToolHelpers.SplitAlwaysSafeIff | service/chat/_tool_helpers.py:180-253 | A history can be split safely wherever asked exactly when no boundary that passes the check has an id declared before it, answered after it and declared again only later |
| ToolHelpers.SplitKeepsOrphanFree | service/chat/_tool_helpers.py:191-198 | When no id is declared twice the documented promise holds |
| ToolHelpers.SplitCanOrphanARepeatedId | service/chat/_tool_helpers.py:224-253 | With a repeated id the right half can hold an orphan |
| ToolHelpers.CompactKeepsShape | service/chat/_tool_helpers.py:63-79 | Whatever compaction does to payloads, pairing and blocks are the same before and after |
| ToolHelpers.CompactOnlyPayloads | service/chat/_tool_helpers.py:63-79 | Compaction rewrites the payload of a tool row and nothing else of any row |
| Tokens.TrimToBudget | service/chat/tokens.py:179-237 | The popping loop and orphan pass compute the function the laws below are about |
| Tokens.TrimmedGreedily | service/chat/tokens.py:208-237 | The result is the leading system row and the longest end of the rest that fits max_tokens minus the reserve, at least the last row, less the tool rows whose request went |
| Tokens.TrimmedBounded | service/chat/tokens.py:208-237 | For any monotone count the result fits or is at most a leading system row and the last row |
| Tokens.TrimmedDropsFewest | service/chat/tokens.py:227-236 | Had one row fewer been popped, the list would still overflow |
| Tokens.TrimmedBlocksExactly | service/chat/tokens.py:229-245 | On whole blocks the orphan pass removes exactly what is left of the block the popping stopped in |
| Tokens.TrimmedKeepsBlocks | service/chat/tokens.py:208-245 | Trimmed whole blocks are whole blocks |
| Tokens.TrimmedLastRow | service/chat/tokens.py:192-237 | In any list the last row stays exactly when it is no tool row, or the latest row that requested it fits together with all rows after it beside the leading system row |
| Tokens.TrimmedLastBlock | service/chat/tokens.py:192-237 | For whole blocks that is the last block; when it does not fit only the leading system row is left |
| Tokens.TrimmedCanLoseTheLastRow | service/chat/tokens.py:192-237 | A concrete list is trimmed to nothing, last row included |
| Tokenizer.CharApprox.CountText | service/chat/tokens.py:102-117 | The counting loop agrees with the count by character class |
| Tokenizer.CharApprox.CharactersByKind | service/chat/tokens.py:102-117 | Every character counts once, as CJK or not |
| Tokenizer.CharApprox.CostIsRoundedUp | service/chat/tokens.py:102-117 | At any rates a nonempty text costs at least one token and otherwise what its characters cost, rounded up but for a thousandth |
| Tokenizer.CharApprox.CountMessage | service/chat/tokens.py:119-128 | A row costs its texts, calls and framing |
| Tokenizer.CharApprox.RowCosts | service/chat/tokens.py:119-137 | A row costs its text and four more, each call its name and arguments, a call id itself, and a list three more than its rows |
| Tokenizer.CharApprox.DefaultRateIsRoundedUp | service/chat/tokens.py:102-117 | At the default rates a text costs a quarter of its plain characters rounded up plus its CJK characters |
| Tokenizer.CharApprox.SplittingCostsAtMostOne | service/chat/tokens.py:102-117 | The count is monotone, and cutting a text in two adds at most one token |
| Tokenizer.CharApprox.CountingIsMonotone | service/chat/tokens.py:130-137 | Dropping any row saves at least its framing, so every budget law applies to this tokenizer |
| ThinkFilter.SplitStream | service/chat/_think_filter.py:25-73 | However a text is cut into feeds, feeding and flushing emits character by character the one-shot reference split |
| ThinkFilter.ThinkTagStreamFilter.Feed | service/chat/_think_filter.py:29-31 | What is emitted is settled whatever comes later, and what is held back has no complete tag and outside a think block fewer characters than a tag |
| ThinkFilter.ThinkTagStreamFilter.Flush | service/chat/_think_filter.py:33-34 | Flushing emits the reference split of what was held back and empties the buffer |
| ThinkFilter.ReferenceInvertsWeave | service/chat/_think_filter.py:36-65 | Splitting undoes joining alternating segments by alternating tags |
| ThinkFilter.EveryTextIsAWeave | service/chat/_think_filter.py:36-65 | Every text is such a join, so the output is the text minus exactly its separating tags |
| ThinkFilter.OutsideTagsIsAnswer | service/chat/_think_filter.py:36-65 | Every text is cut by an opening tag after each even segment and a closing one after each odd segment; even segments come out as tokens and odd ones as thoughts |
| ThinkFilter.MergedIsGrouped | service/chat/_think_filter.py:71-73 | Joining adjacent pieces of a kind depends only on the characters emitted, so all chunkings give the same merged pieces |
| JsonScan.ExtractJson | service/knowledge/reflect.py:87-134 | Returns the balanced text starting at the first brace of the unfenced reply, or nothing when that brace never closes |
| JsonScan.FirstObjectIsUnique | service/knowledge/reflect.py:113-134 | At most one text is the first object of a reply |
| JsonScan.PrintedIsBalanced | service/knowledge/reflect.py:113-134 | Scanning any RFC 8259 object, with any white space and escapes, closes exactly at its last character |
| JsonScan.InsideAnyString | service/knowledge/reflect.py:117-126 | Inside a string only a quote ends it and a backslash disarms any next character, also where JSON allows neither |
| JsonScan.PrintedIsFound | service/knowledge/reflect.py:99-134 | Behind any brace-free text and before any text, fenced or not, the printed object is what is found, unless a fence line runs into it |
| JsonScan.PrintedIsFoundIff | service/knowledge/reflect.py:101-109 | With no brace behind the object that condition is exact, whatever the object's layout; for one written on one line otherwise nothing at all is found |
| JsonScan.FencedObjectIsHidden | service/knowledge/reflect.py:101-109 | Three backticks right before an object printed over two lines hide it |
| JsonScan.ExtractPrinted | service/knowledge/reflect.py:87-134 | Print, wrap in prose, extract gives the object back |
| WikiPages.PageStore.CreatePage | api/routers/wiki.py:496-534 | Refuses exactly the named cases, else adds one page at the first place behind all its siblings; keeps the forest and pages in their parent's wiki |
| WikiPages.PageStore.DuplicatePage | api/routers/wiki.py:619-651 | Adds a copy under the same parent at the first place behind all siblings and keeps the forest |
| WikiPages.PageStore.DeletePage | api/routers/wiki.py:603-616 | Removes the page; its children become roots, and nothing else of any page changes; keeps the forest |
| WikiPages.PageStore.IsBelow | api/routers/wiki.py:687-691 | The ancestor walk ends, and answers yes exactly when the page is a proper ancestor of the would-be parent |
| WikiPages.PageStore.MovePage | api/routers/wiki.py:654-708 | Succeeds exactly when something is asked for, the caller may edit the page and the wiki it goes to, and the new parent lies there and is not the page or below it; then the page is at the first place behind its new siblings; keeps the forest, across wikis too, and pages in their parent's wiki exactly when the page stays in its wiki or has no children |
| WikiPages.PageStore.UpdatePage | api/routers/wiki.py:573-600 | The forest survives a patch exactly when the new parent is not the page or one of its descendants, and pages stay in their parent's wiki exactly when the new parent lies in the page's wiki |
| WikiPages.Serve | api/routers/wiki.py:496-708 | Over every run of creations, copies, deletions and moves no page becomes its own ancestor, and without moves to a named wiki pages stay in their parent's wiki |
| WikiPages.RelinkIff | api/routers/wiki.py:686-692 | Hanging a page under another keeps a forest exactly when the other is not the page or below it |
| WikiPages.DeleteKeepsForest | service/db/models/wiki_page.py:42-45 | Setting the children's parent to null keeps a forest |
| WikiPages.PatchCanMakeACycle | api/routers/wiki.py:590-591 | A patch can close a cycle on which an ancestor walk never ends |
| WikiPages.MovedWikiIff | api/routers/wiki.py:667-692 | Putting a page elsewhere keeps pages in their parent's wiki exactly when it stays in its wiki or leaves no children behind |
| WikiPages.PatchedWikiIff | api/routers/wiki.py:590-591 | Writing a parent unchecked does so exactly when that parent lies in the page's wiki |
| WikiPages.MoveCanSplitWikis | api/routers/wiki.py:667-675 | A concrete move across wikis leaves a child behind in the old wiki |
| RefreshTokens.AuthService.DoLogin | service/auth/service.py:137-167 | A login issues one live token or changes nothing |
| RefreshTokens.LoginIff | service/auth/service.py:137-167 | A login succeeds exactly for an active user with the right password, the password judged first; it adds one live token of that user and a refused one changes nothing |
| RefreshTokens.AuthService.DoRefresh | service/auth/service.py:209-253 | A refresh follows the step relation: exchange, or mass revocation on reuse, or refusal |
| RefreshTokens.RefreshIff | service/auth/service.py:209-253 | A refresh succeeds exactly with a genuine, unexpired, live token of an active user, which it uses up for a new live one; it touches no other token, and a refusal other than reuse changes nothing |
| RefreshTokens.AuthService.DoLogout | service/auth/service.py:258-276 | Logging out revokes a token, swallows an invalid one and reports an expired one |
| RefreshTokens.LogoutRevokes | service/auth/service.py:258-276 | After a logout with a genuine, unexpired token that token is not live, every other token is as before, and over any later run it is never exchanged |
| RefreshTokens.LogoutChangesNothing | service/auth/service.py:258-265 | A forged token is swallowed and an expired one reported; neither changes anything |
| RefreshTokens.RunKeepsInv | service/auth/service.py:137-276 | Over every run the chain of tokens started by a login has at most one live token |
| RefreshTokens.RevokedForever | service/auth/service.py:209-276 | A token that is not live never becomes live again |
| RefreshTokens.ExchangedAtMostOnce | service/auth/service.py:220-253 | In any run each token is exchanged successfully at most once |
| RefreshTokens.ReuseLocksOut | service/auth/service.py:224-237 | With detection on, presenting a revoked token leaves its user no live token; with it off nothing changes |
| RefreshTokens.ReuseSparesOthers | service/auth/service.py:224-237 | Reuse under detection revokes exactly the tokens of the token's owner |
| RefreshTokens.AccountChanges | service/auth/service.py:209-253 | Switching an account on or off touches no token; removing a user takes exactly that user's tokens along |
| RefreshTokens.LockoutLasts | service/auth/service.py:209-253 | From then on every refresh for that user fails until a login succeeds |
| RefreshTokens.WithoutDetectionTheChainLives | service/auth/service.py:224-237 | With detection off a reused token is refused while its successor stays live |
| Uploads.UploadStore.WriteChunk | service/platform/storage/uploads.py:86-106 | Accepts exactly the expected indices with the expected size and stores the bytes, overwriting |
| Uploads.UploadStore.ReceivedIndices | service/platform/storage/uploads.py:160-173 | Lists the stored indices in ascending order |
| Uploads.UploadStore.Assemble | service/platform/storage/uploads.py:175-192 | Succeeds exactly when every chunk is there and returns the file they stand for; otherwise names the first missing chunk |
| Uploads.UploadStore.Complete | api/routers/assets.py:197-210 | The range check and reassembly succeed exactly when every chunk arrived |
| Uploads.Upload | api/routers/assets.py:158-210 | After any sequence of writes completion succeeds exactly when each chunk was accepted once at least |
| Uploads.ExpectedChunksIsCeiling | service/platform/storage/uploads.py:40-43 | That many chunks hold the file and one fewer does not |
| Uploads.LastChunkSize | service/platform/storage/uploads.py:95-101 | The last chunk has between 1 and chunk_size bytes |
| Uploads.StoredIsLastWrite | service/platform/storage/uploads.py:86-158 | A chunk is present exactly when some write to it was accepted, and is the last such write |
| Uploads.ByteComesFromLastWrite | service/platform/storage/uploads.py:175-192 | Byte k of the last accepted write to chunk i is byte i times chunk_size plus k of the file |
| Uploads.UploadIsIdentity | service/platform/storage/uploads.py:86-192 | Uploading the pieces of a file in any order, repeated and mixed with refused writes, gives the file |
| McpClient.IdsNeverReused | service/mcp/client.py:252-260 | Request ids strictly increase over any run |
| McpClient.CompletesAtMostOnce | service/mcp/client.py:269-315 | A completed future keeps its outcome for ever |
| McpClient.EveryOutcomeHasItsCause | service/mcp/client.py:269-315 | Every outcome has its cause: a result comes only from a frame read while its caller waited, whose id is that number, or true for request 1 |
| McpClient.ReplyIsDelivered | service/mcp/client.py:296-315 | A frame that carries the id of a waiting request leaves its future with exactly the frame's result, or its error, touches no other and keeps the reader going |
| McpClient.TrueAnswersTheFirst | service/mcp/client.py:302-305 | A frame whose id is true answers request 1 |
| McpClient.UnknownIdsChangeNothing | service/mcp/client.py:302-305 | Frames for nobody, however many, change no future and no registration |
| McpClient.EofCompletesAll | service/mcp/client.py:280-286 | At end of file, over any run, everyone who waits is answered with that and no one is overlooked |
| McpClient.CloseCompletesAll | service/mcp/client.py:155-178 | After a close every future ever made is done unless its caller left first |
| McpClient.ClosingEnds | service/mcp/client.py:155-178 | Closing forgets all registrations and fails exactly the futures that wait |
| McpClient.RepliesReachTheirCallers | service/mcp/client.py:269-315 | Whatever batch of frames comes, strangers and repeats included, each waiting caller gets what the first frame that carries its id says and nobody else is touched |
| McpClient.StartedClientsRead | service/mcp/client.py:252-301 | A started client reads, goes on after lines that are no replies, and gives each request a fresh waiting future |
| McpClient.CallersLeaveAlone | service/mcp/client.py:252-267 | A caller that is cancelled, leaves or wakes up changes its own future or registration and nobody else's |
| McpClient.DeafForGood | service/mcp/client.py:155-315 | Once the reader has stopped, or a close began, no reply is delivered again, even after a restart |
| McpClient.CompositeIdDeafens | service/mcp/client.py:302-303 | A frame whose id is a list or object stops the reader |
| McpClient.Client.Register | service/mcp/client.py:252-260 | A started client gives each request a fresh id and a waiting future |
| McpClient.Client.OnLine | service/mcp/client.py:278-315 | Handling a frame is the step of the protocol |
| McpClient.Client.OnEof | service/mcp/client.py:280-286 | End of file is the step of the protocol |
| McpClient.Client.FinishClose | service/mcp/client.py:158-178 | Closing completes every pending future and forgets it |
| RateLimiter.Limiter.Record | service/platform/redis.py:208-231 | One hit follows the window step on its own key only; with Redis off or failing it is allowed |
| RateLimiter.AnswerIs | service/platform/redis.py:208-231 | Any failing command that is sent lets the hit through; otherwise a hit passes exactly up to the limit and beyond it is told the seconds left, at least one, rounded to the nearest |
| RateLimiter.StepIs | service/platform/redis.py:219-223 | A hit counts unless INCR was not applied; the first opens a window of its whole length unless the EXPIRE is lost, and later ones leave its end alone |
| RateLimiter.Serve | service/platform/redis.py:208-231 | For callers sharing a limiter each verdict depends on the hits on that key alone |
| RateLimiter.AtMostLimitPerWindow | service/platform/redis.py:221-227 | Each window admits at most limit hits, over any timed run and any failures |
| RateLimiter.AtMostTwiceTheLimit | service/platform/redis.py:221-227 | Any stretch as long as a window admits at most 2 limit - 1 hits |
| RateLimiter.TwiceTheLimitIsReached | service/platform/redis.py:221-227 | For every limit some run reaches that bound |
| RateLimiter.RetryAfterIsSoundIff | service/platform/redis.py:224-226 | A blocked caller that returns as told or later is let in exactly when the window is over by then, and at the announced time it is over unless a second or more was left and the rest was rounded down |
| RateLimiter.RetryCanBeEarly | service/platform/redis.py:224-226 | A run from an empty key whose blocked caller is told to come back in one second and is blocked again when it does |
| RateLimiter.WindowEnds | service/platform/redis.py:221-227 | Further hits never extend a window: the first hit at or after its end is allowed |
| RateLimiter.RecoversIff | service/platform/redis.py:221-231 | After a whole window without hits the next one is blocked exactly when the hit that created the counter lost its EXPIRE and the limit has been used up since |
| RateLimiter.EndlessIffExpireLost | service/platform/redis.py:221-223 | Over every run a counter has no end exactly when the hit that created it lost its EXPIRE |
| RateLimiter.ExpireCanBeLost | service/platform/redis.py:221-231 | A run from an empty key: one failed EXPIRE and the rest of the limit block the key at every later time |
| RateLimiter.LostExpireBlocksForGood | service/platform/redis.py:221-231 | Such a key stays blocked for ever, whatever is tried |
| ToolCallBuilder.Builder.Feed | service/llm/openai.py:108-125 | Feeding a batch absorbs its fragments in order |
| ToolCallBuilder.Builder.TakeAll | service/llm/openai.py:127-149 | Takes everything collected in ascending index order and leaves the buffer empty |
| ToolCallBuilder.BufferHoldsEachCall | service/llm/openai.py:108-125 | The buffer holds exactly the indices seen, each with its own fragments joined in order and the last id |
| ToolCallBuilder.FragmentsJoin | service/llm/openai.py:108-125 | A fragment joins those of its own index alone: names and arguments are appended and a sent id replaces the last |
| ToolCallBuilder.InterleavingDoesNotMatter | service/llm/openai.py:96-104 | Streams with the same per-index fragments collect the same calls |
| ToolCallBuilder.FeedInBatches | service/llm/openai.py:108-149 | However fragments are batched, taking all at the end gives what one feed would |
| ToolCallBuilder.EachNamedIndexOnce | service/llm/openai.py:127-149 | Each index with a name yields exactly one call, ascending, with the joined names and arguments of its fragments and its last id, or call_idx and the index when there is none |
| ToolCallBuilder.DecimalReads | service/llm/openai.py:127-149 | The index is written in decimal digits that read back as that number |
| ToolCallBuilder.BatchesPartitionTheFragments | service/llm/openai.py:301-322 | Every fragment is in exactly one flushed batch, in order |
| ToolCallBuilder.ChatStream | service/llm/openai.py:265-322 | Fails exactly on a line that is not JSON before the terminator, having put out what the lines before it called for; otherwise each text comes out in its place among the batches of calls, the open batch at the end, and then the terminator |
| ToolCallBuilder.CompleteCarriesAll | service/llm/openai.py:265-322 | That output holds all the text in order and the calls of every batch once, in order |
| ToolCallBuilder.CompleteEnds | service/llm/openai.py:301-322 | A stream that ended properly has one terminator, last, exactly when the terminator line, a finish reason or a usage report was read, with the last usage reported |
| ToolCallBuilder.EmittedInOrder | service/llm/openai.py:265-322 | So does what came out before a failing line, up to the last batch flushed |
| SplitText.Split | service/knowledge/ingest.py:60-88 | Terminates for every positive size and any overlap with the non-blank windows; a blank text gives none, a non-positive size is an error |
| SplitText.CountIsExact | service/knowledge/ingest.py:80-87 | The number of windows is the first that reaches the end of the text |
| SplitText.WindowBounds | service/knowledge/ingest.py:76-87 | Windows start a step apart, overlap by exactly the clamped overlap and add something each |
| SplitText.WindowsAsAsked | service/knowledge/ingest.py:70-87 | Window i starts at i times (size minus overlap) and is size long or ends with the text; an overlap below 0 or not below the size counts as 0 or size minus 1 |
| SplitText.InkIsCovered | service/knowledge/ingest.py:81-88 | Every visible character lies in a returned chunk |
| SplitText.RebuildsIff | service/knowledge/ingest.py:60-88 | The first chunk and the later ones minus the overlap give the text back exactly when no window is blank |
| Fusion.Fuse | service/knowledge/pgvector.py:437-473 | The accumulating loops compute the fused list the laws below are about |
| Fusion.PartIsCreditOfRank | service/knowledge/pgvector.py:456-461 | With distinct keys a ranking contributes 1/(60 + rank) or nothing |
| Fusion.ScoresAddUp | service/knowledge/pgvector.py:444-461 | Each occurrence of a key at a place earns 1/(60 + place), repeats included, and rankings add up |
| Fusion.PermutingRankings | service/knowledge/pgvector.py:437-461 | The order of the rankings does not change a score |
| Fusion.DominanceIsRespected | service/knowledge/pgvector.py:444-446 | At least as good a rank everywhere gives at least the score |
| Fusion.ScoreBound | service/knowledge/pgvector.py:456-461 | A score is at most m/61 for m rankings, and that only for a key placed first in all of them |
| Fusion.FusedIsTheUnion | service/knowledge/pgvector.py:448-473 | The output holds each key of any ranking once with its score, best first, ties in order of first appearance |
| Fusion.OrderIsFirstAppearance | service/knowledge/pgvector.py:448-473 | Of two keys the one listed first turns up before any appearance of the other |
| Fusion.SortedLaws | service/knowledge/rerank.py:44-53 | The sort is by falling score, keeps the hits, and is stable |
| Fusion.SearchTail | service/knowledge/pgvector.py:125-129 | The end of a search fuses, reranks by score, cuts at top_k and applies the threshold |
| Fusion.SearchIsAPrefix | service/knowledge/pgvector.py:125-129 | With the default reranker a search returns the longest prefix of the fused list within both limits |
| Fusion.SearchEmptyIff | service/knowledge/pgvector.py:125-129 | It is empty exactly when nothing was asked for or no key's score reaches the threshold |
| Fusion.HighThresholdHidesAll | service/knowledge/pgvector.py:125-129 | A threshold above m/61 hides everything |

## Left out

- JsonScan.PrintedIsFoundIff: exact when no brace comes behind the object; with one the condition is sufficient, because that brace can be found in its place. That nothing at all is found is claimed for one-line objects only: cutting into a longer one can leave an inner object to be found.
- HTTP routing, schemas, cookies, settings, migrations and access control beyond the wiki editor check, which is a given set of wikis per call.
- Ownership checks and the ordering of rows by creation time: a session's rows are a sequence in insertion order.
- Prompt wording, query building and the texts of notices and fallbacks: parameters (`ChatService.World`, `ChatRun.Setting`).
- What compaction does to a tool payload: an arbitrary function; that it shrinks is not claimed, and a short JSON payload need not shrink.
- Clamping of top_k, long-term memories, fact extraction, usage accounting and automatic titles.
- Timeouts, task scheduling and the race of a tool with an abort: a dispatch always returns some result.
- Summariser failures other than a model error, which would escape `compress`.
- A tokenizer that differs between the service and the summariser; the factory gives both the same.
- Floating point: rates and scores are exact reals.
- `str.lower` on the few code points where it changes length: folding is per character.
- Concurrent refreshes of one token: the code takes no row lock, and each call is one step here.
- Collisions of token ids and malformed subjects: ids are fresh and signed payloads cannot be forged.
- Upload sessions on disk: only the chunk files of one session, with writes atomic and the empty-body check of the route left out.
- Two overlapping closes of one MCP client, and the steps between forgetting the process and failing the callers.
- Decoding of tool arguments from their JSON text, and non-object lines in the response stream.
- Redis itself: time is one clock in milliseconds, and TTL is taken to answer whole seconds rounded to the nearest.
- The embedding and SQL branches of a search, and rerankers other than the default.
- `ReflectionCritic.judge`, other identity flows, organisation and provider management, the worker queue and the front ends: one-step claims.
