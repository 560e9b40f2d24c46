# buddy-bot message pipeline, in Dafny

This project models the deterministic core of buddy-bot, a Telegram personal
assistant. The core is the per-chat pipeline around the language-model call,
plus the helpers around it:

- the debounce buffer that collects a chat's messages (`Buffer`);
- the per-chat processing loop that drains the buffer and calls the executor.
  It counts consecutive failures, requeues a failed batch, and gives up with
  one notice after the third failure (`BuddyBot`);
- the Claude CLI executor that is wired into the bot (`Executor`). It folds
  the CLI's JSONL stream into a reply, resumes the session once on an empty
  answer, and saves or clears the chat's fallback;
- the Anthropic-API processor (`Processor`). It has a bounded tool-use loop
  and a hand-written retry schedule for each error class;
- the generic `retry_with_backoff` helper (`Retry`);
- the in-process tool registry (`Registry`) and the MCP tool server
  (`McpServer`). Neither ever raises;
- the history store, with its recent-turns window and its consume-once
  fallback slot (`History`);
- the todo store and its tool handlers (`Todo`, `TodoTools`);
- text helpers. These cover `split_message` (`Bot`), prompt assembly
  (`Prompt`), progress messages (`Progress`), e-mail header and body
  selection (`Email`, with `Base64` and `Utf8`), and settings validation
  (`Config`).

SQLite tables become sequences of rows in id order. A monotone counter plays
the part of `sqlite_sequence`. `datetime('now')` and `date('now', N days)` are
parameters. The model treats these as opaque, passing them in as parameters:
`json.dumps`, the language model, the Claude CLI process, Telegram, and the
tool handlers' own work. Where the stream or the API answers matters, it is an
input: the decoded lines, a `create` outcome per attempt, and `dispatched`
tool results.

Each stateful entity is a class whose methods state their whole new state.
Examples are `MessageBuffer`, `BuddyBot`, `HistoryStore`, `TodoStore`,
`ToolRegistry`, `LockTable` and the MCP `Server`. Each loop of the source is
a method with a loop, proved equal to a specification function. Those loops
are the processing loop, the stream fold, the tool-round loop, the retry
loops and the split loop. Lemmas then state what the source promises about
each specification function.

`src/buddy_bot/mcp_server.py` holds copies of `_get_header` and
`_decode_body` (`_get_email_header` at lines 394-398, `_decode_email_body`
at lines 466-481). They are the same code, so both are modelled by the `Email`
members.

Where the behaviour described for the system differs from the code, the model
follows the code:

- a requeued batch goes to the BACK of the buffer, behind anything pending;
- the tool-round cap returns a string rather than raising;
- `fallback_max_chars` is never applied to a saved fallback;
- the failure counter belongs to one run of the loop, not to one batch.

## Model

| member | source | states |
|---|---|---|
| Buffer.MessageBuffer.Add | src/buddy_bot/buffer.py:16-18 | the event goes to the back of the pending events and the wake flag is raised; the buffer invariant holds: flag ⇒ non-empty, and drained ++ pending == everything added, in call order |
| Buffer.MessageBuffer.Append | src/buddy_bot/buffer.py:44-48 | a requeued batch goes behind what is pending, in its own order; the flag changes only for a non-empty batch; no loss or duplication |
| Buffer.MessageBuffer.IsEmpty | src/buddy_bot/buffer.py:41-42 | true exactly when no event is pending |
| Buffer.MessageBuffer.ClearWake | src/buddy_bot/buffer.py:26-27 | a turn of the debounce loop lowers the flag and keeps the events, and the invariant holds |
| Buffer.MessageBuffer.Drain | src/buddy_bot/buffer.py:35-39 | returns every pending event in insertion order and leaves the buffer empty with the flag down; a raised flag guarantees a non-empty batch; the batch is recorded as drained, so nothing is lost or duplicated |
| Buffer.RequeueOrderExample | src/buddy_bot/buffer.py:44-46 | add a, b; drain; add c; requeue [a, b]: the next drain is [c, a, b], so requeued events go behind newer ones |
| BuddyBot.BuddyBot.GetBuffer | src/buddy_bot/main.py:38-43 | a chat's buffer is made once, empty; every later call returns that same buffer and changes nothing |
| BuddyBot.BuddyBot.OnMessage | src/buddy_bot/main.py:45-55 | the event goes to the back of its chat's buffer and no other chat's buffer changes; a task is started iff the chat has none or its last one is done |
| BuddyBot.BuddyBot.ProcessingLoop | src/buddy_bot/main.py:57-98 | the loop's calls, its notice and what it leaves in the buffer are exactly those of the specification `RunLoop` |
| BuddyBot.DrainAndProcess | src/buddy_bot/main.py:59-98 | the loop body, proved by loop invariants equal to `RunLoop` from the buffer's contents, with the buffer invariant kept |
| BuddyBot.Turn | src/buddy_bot/main.py:63-94 | one drain-process-handle turn: the call gets the whole pending batch; success resets the counter; a failure increments it and, below 3, requeues the batch behind the arrivals; the 3rd consecutive failure gives up |
| BuddyBot.Requeue | src/buddy_bot/main.py:92-94 | the failed batch goes behind what is pending, then events arriving during the pause follow it |
| BuddyBot.Deliver | src/buddy_bot/main.py:45-50 | events arriving one by one while a loop runs are appended in order |
| BuddyBot.RunLoopUnfold | src/buddy_bot/main.py:62-98 | one turn of the loop: stop on success with nothing new, stop and notify on the 3rd consecutive failure, otherwise continue from the next batch |
| BuddyBot.CallOutcomes | src/buddy_bot/main.py:67-71 | call i of a run succeeds iff the executor does not raise on it |
| BuddyBot.NextBatches | src/buddy_bot/main.py:63-94 | after a success the next batch is what arrived meanwhile; after a failure it is the arrivals, then the failed batch, then what arrived during the pause |
| BuddyBot.RunEnds | src/buddy_bot/main.py:77-98 | a run ends on a success with an empty buffer, or on a failure that gives up: the notice is sent, and what arrived during that last call stays pending |
| BuddyBot.NoticeIffThreeFailuresInARow | src/buddy_bot/main.py:60-91 | the notice is sent iff the run ends with three failed calls in a row, and no earlier point had three in a row |
| BuddyBot.NoticeOnThirdFailure | src/buddy_bot/main.py:69-77 | the counter equals the number of trailing failed calls, so the notice fires exactly when that reaches 3 |
| BuddyBot.NeverThreeBeforeEnd | src/buddy_bot/main.py:77-91 | before its last call a run never had three failures in a row |
| BuddyBot.CallsBounded | src/buddy_bot/main.py:60-94 | a run makes at most 3 calls beyond the number of arrival rounds it is given, so retries per run are bounded |
| BuddyBot.TransientFailureThenSuccess | src/buddy_bot/main.py:92-94 | one failure then success, with nothing new arriving: process is called exactly twice on the same batch, and no notice is sent |
| BuddyBot.ThreeFailuresDrop | src/buddy_bot/main.py:77-91 | three failures: three calls on the same batch, one notice, and the batch is dropped, leaving the buffer empty |
| BuddyBot.FailuresOfDifferentBatchesAccumulate | src/buddy_bot/main.py:60-71 | a new message merged into the retried batch does not reset the counter: three failures still give up |
| Locks.LockTable.GetLock | src/buddy_bot/executor.py:32-35 | the same lock for a chat on every call, a fresh one the first time, and no two chats share one |
| Executor.Absorb | src/buddy_bot/executor.py:185-205 | a "system" message overwrites the session id, even with None; a "result" message overwrites the result text and supplies the session only if none is set; other types leave the pair alone |
| Executor.ReadStream | src/buddy_bot/executor.py:153-207 | the while loop equals the left fold `FoldStream` over the lines, and `raw_lines` holds the stripped non-blank lines |
| Executor.FoldSnoc | src/buddy_bot/executor.py:168-205 | one more line is one more fold step: blank lines are skipped; a non-JSON line is collected but changes nothing |
| Executor.FoldErrorSticks | src/buddy_bot/executor.py:191-199 | once the read has raised, later lines cannot repair it |
| Executor.SkippedLines | src/buddy_bot/executor.py:173-183 | blank lines and lines that are not JSON leave the state as it was |
| Executor.UnreadableAssistantRaises | src/buddy_bot/executor.py:191-199 | an "assistant" message whose content cannot be scanned makes the read raise |
| Executor.InertLinesGiveStart | src/buddy_bot/executor.py:164-165 | with no system or result line, the fold returns ("", None) |
| Executor.InertSuffix | src/buddy_bot/executor.py:191-199 | readable assistant lines and other inert lines never change the pair |
| Executor.LastResultWins | src/buddy_bot/executor.py:201-205 | the last result message's text is the one returned |
| Executor.SystemOverwritesSession | src/buddy_bot/executor.py:187-189 | a system line sets the session id outright, whatever came before |
| Executor.ResumeResult | src/buddy_bot/executor.py:225-246 | a timeout or non-zero exit gives ("", None); JSON stdout gives (result or "", its session_id); non-JSON stdout gives (stdout, the given session) |
| Executor.Reply | src/buddy_bot/executor.py:72-78 | a non-blank result is the reply; a blank one with a session is resumed once; a reply that is still blank becomes "(no response)", so a reply is never blank |
| Executor.NoResponseNotBlank | src/buddy_bot/executor.py:77-78 | "(no response)" is not blank |
| Executor.Texts | src/buddy_bot/executor.py:81 | one text per event, in order, with a missing text read as "" |
| Executor.BuildCommand | src/buddy_bot/executor.py:248-262 | the command is exactly `claude -p <prompt> --output-format stream-json --verbose --model <m> --mcp-config <p> --allowedTools mcp__*` |
| Executor.ResumeCommand | src/buddy_bot/executor.py:211-217 | the resume command is `claude -p <nudge> --output-format json --resume <session> --model <m>` |
| Executor.ClaudeExecutor.Process | src/buddy_bot/executor.py:37-41 | takes the chat's own lock (made once per chat), then does what `_process_impl` does: raises iff generation fails; on success saves the turn, clears the fallback and sends the reply; on failure saves the failure note as the fallback |
| Executor.ClaudeExecutor.ProcessImpl | src/buddy_bot/executor.py:43-102 | the fallback is consumed first. On success the turn is saved with the texts joined by "\n", then the fallback is cleared, then the reply is sent, in that order. On failure the note "Processing failed for messages: [...]" becomes the fallback, a failed save is swallowed, and the error is raised again |
| Executor.Conclude | src/buddy_bot/executor.py:80-102 | steps 6-7 and the except branch: the effects in order and the new history tables |
| Executor.OutcomeOfRun | src/buddy_bot/executor.py:68-78 | the generation outcome is the reply made from what `_run_claude` returned |
| Executor.RunClaude | src/buddy_bot/executor.py:104-151 | a timeout raises; a non-zero exit raises after the stream is read; otherwise the fold's pair is returned |
| Processor.AsResult | src/buddy_bot/processor.py:141-149 | a create call yields a response exactly when it did not raise |
| Processor.ApiCall | src/buddy_bot/processor.py:138-177 | the retry loop equals the specification `Schedule`: its result, its create-call count and its sleeps |
| Processor.ScheduleShape | src/buddy_bot/processor.py:140-177 | every call but the last was retried after its class's delay, and the last one decides the result |
| Processor.ScheduleBounds | src/buddy_bot/processor.py:140-177 | between 1 and 4 create calls, one sleep between consecutive calls, and every sleep is 1, 2 or 30 s (never 4 s) |
| Processor.RateLimitedThrice | src/buddy_bot/processor.py:150-155 | a persistent rate limit sleeps 1 s then 2 s and is raised on the 3rd call |
| Processor.ServerErrorTwice | src/buddy_bot/processor.py:156-161 | a persistent server error is retried once after 2 s (only on attempt 0), then raised |
| Processor.AlwaysOverloaded | src/buddy_bot/processor.py:162-177 | status 529 on every attempt: three 30 s sleeps, then the unguarded 4th call decides |
| Processor.OtherErrorRaisedAtOnce | src/buddy_bot/processor.py:166-167 | any other error is raised after one call, with no sleep |
| Processor.TextParts | src/buddy_bot/processor.py:106-110 | the text blocks' texts in order; empty iff there is no text block |
| Processor.ToolUses | src/buddy_bot/processor.py:107-112 | the tool_use blocks in order; empty iff there is none |
| Processor.SortBlocks | src/buddy_bot/processor.py:105-112 | the block loop yields exactly `TextParts` and `ToolUses` |
| Processor.ResultsFor | src/buddy_bot/processor.py:122-132 | exactly one tool_result per tool_use, in order, each with the matching tool_use_id |
| Processor.Round | src/buddy_bot/processor.py:103-134 | no tool use or "end_turn" stops with the texts joined by "\n" or "(no response)"; otherwise the round continues with the content and its answering results; an API error stops the loop with that error |
| Processor.OneRound | src/buddy_bot/processor.py:103-134 | one loop body equals `Round` on what `_api_call` returned |
| Processor.CallWithTools | src/buddy_bot/processor.py:98-136 | the for loop equals the specification `LoopFrom` from round 0 |
| Processor.LoopRounds | src/buddy_bot/processor.py:102-136 | the loop runs at most MAX_TOOL_ROUNDS = 20 rounds and stops early only on a finishing round or an error |
| Processor.LoopMessages | src/buddy_bot/processor.py:120-134 | every round that continues appends an assistant turn, then one user turn answering all its tool uses |
| Processor.CallWithToolsShape | src/buddy_bot/processor.py:98-136 | from the prompt: at most 20 rounds, the prompt kept at the front, and every later message pair answered |
| Processor.FirstRoundFinishes | src/buddy_bot/processor.py:114-116 | a first response that finishes is the whole exchange: its texts or "(no response)" |
| Processor.ToolsEveryRound | src/buddy_bot/processor.py:136 | when every round asks for tools, the loop ends after 20 rounds with the last texts or "(max tool rounds reached)", without raising |
| Processor.StopWithError | src/buddy_bot/processor.py:103 | a round stops with an error exactly when its `_api_call` raised |
| Processor.RoundsOfAnswered | src/buddy_bot/processor.py:120-134 | every continuing round carries results answering its content |
| Processor.PromptLeads | src/buddy_bot/processor.py:98-136 | the user prompt stays the first message of the conversation the tool loop sends |
| Processor.Generate | src/buddy_bot/processor.py:65-72 | the system prompt is `build_system_prompt` of the given time; the conversation sent starts with the user prompt built from these turns, events and fallback and is the one `LoopFrom` grows from it; the result is the specification `Answer` |
| Processor.MessageProcessor.Process | src/buddy_bot/processor.py:39-48 | takes the chat's own lock (made once per chat), then does what `_process_impl` does: sends the system prompt of the current time and a conversation that starts with the user prompt of the recent turns and the consumed fallback; raises iff the answer is an API error; on success saves the turn, clears the fallback and sends the reply; on failure saves the failure note as the fallback |
| Processor.MessageProcessor.ProcessImpl | src/buddy_bot/processor.py:50-96 | the system prompt is built from the current time, and the conversation sent starts with the user prompt of `get_recent_turns` (read before the call) and the fallback consumed for the chat. On success the turn is saved, the fallback cleared and the reply sent. On failure the note is saved as fallback and the error is raised again |
| Retry.Delay | src/buddy_bot/retry.py:63 | the delay is min(base·2^k, max), never above backoff_max |
| Retry.RetryWithBackoff | src/buddy_bot/retry.py:22-75 | the for loop equals the specification `RetrySpec`: outcome, number of calls and sleeps |
| Retry.RetryFromShape | src/buddy_bot/retry.py:54-71 | every call before the last raised retriably and was followed by its delay; the last call decides; the trailing raise is never reached from the loop |
| Retry.RetryBounds | src/buddy_bot/retry.py:54-75 | at most max_retries + 1 calls, one sleep between calls, and every sleep ≤ backoff_max; the assertion after the loop fails iff max_retries < 0 |
| Retry.FirstCallSucceeds | src/buddy_bot/retry.py:54-56 | a first-call success returns its value after one call with no sleep |
| Retry.NonRetriableStops | src/buddy_bot/retry.py:59-60 | a non-retriable exception is re-raised unchanged right after the call that raised it |
| Retry.AllFail | src/buddy_bot/retry.py:61-62 | if every call fails retriably, MaxRetriesExceeded carries the final exception with attempts = max_retries + 1 (one call when max_retries = 0) |
| Retry.DelayDoubles | src/buddy_bot/retry.py:63 | below the cap each delay is twice the previous one |
| Registry.OutcomeText | src/buddy_bot/tools/registry.py:56-64 | a string result is returned unchanged, any other value is JSON-encoded, and an exception becomes {"error": "Tool <name> failed: <msg>"} |
| Registry.ToolRegistry.Register | src/buddy_bot/tools/registry.py:30-35 | the entry is stored under its name, replacing an earlier one, which keeps its first-registration position |
| Registry.ToolRegistry.Definitions | src/buddy_bot/tools/registry.py:37-46 | one {name, description, input_schema} per registered name, in first-registration order |
| Registry.ToolRegistry.Dispatch | src/buddy_bot/tools/registry.py:48-64 | an unknown name gives {"error": "Unknown tool: <name>"} and calls no handler; otherwise the named handler runs and its outcome becomes the text; the table is only read, and nothing is raised |
| Registry.DefinitionsOf | src/buddy_bot/tools/registry.py:39-46 | one definition per name, in the given order |
| Registry.DefinitionsUnique | src/buddy_bot/tools/registry.py:37-46 | each registered name has exactly one definition |
| Registry.OrderAfterFresh | src/buddy_bot/tools/registry.py:30-35 | registering names none of which is present yet appends them to the order in their own order |
| Registry.ReRegister | src/buddy_bot/tools/registry.py:30-35 | registering a name again replaces its description and handler but not its position or the count |
| McpServer.ToolsMatchHandlers | src/buddy_bot/mcp_server.py:607-621 | the 13 TOOLS names are exactly the HANDLERS keys, each once |
| McpServer.CallTool | src/buddy_bot/mcp_server.py:634-645 | always exactly one TextContent: the unknown-tool error, the handler's string, or the "Tool <name> failed" error |
| McpServer.CallToolAgreesWithRegistry | src/buddy_bot/mcp_server.py:636-645 | call_tool and the registry's dispatch give the same text for every handler string, exception or unknown name |
| McpServer.Server.constructor | src/buddy_bot/mcp_server.py:36 | no store is open yet; the server starts from the todos table already in the database file |
| McpServer.Server.GetTodoStore | src/buddy_bot/mcp_server.py:40-44 | the store is opened on the first call over the rows and id counter already in the database file, and the same instance is returned afterwards; what the handlers see is unchanged |
| Todo.TodoStore.constructor | src/buddy_bot/todo.py:20-43 | CREATE TABLE IF NOT EXISTS: the store holds the rows and the AUTOINCREMENT counter already on disk |
| McpServer.Server.TodoAdd | src/buddy_bot/mcp_server.py:244-257 | chat_id comes from the arguments. A missing chat_id or title raises and changes nothing. Otherwise one pending row is added with a fresh id, with priority defaulting to "medium", and the created record is echoed |
| McpServer.Server.TodoList | src/buddy_bot/mcp_server.py:260-277 | the listing of the chat named in the arguments, one record per item in store order; the store is unchanged |
| McpServer.Server.TodoComplete | src/buddy_bot/mcp_server.py:280-291 | only the named chat's row is marked done; the reply is the completed record, or {"error": "Todo #<id> not found"} |
| McpServer.Server.TodoDelete | src/buddy_bot/mcp_server.py:294-301 | only the named chat's row is removed; the reply is {"status": "deleted", "todo_id": id}, or the not-found error |
| History.PrefixSlice | src/buddy_bot/history.py:68-69 | `s[:n]` with Python's rules for a negative bound |
| History.ChatRows | src/buddy_bot/history.py:60 | exactly that chat's rows, in id order |
| History.RecentTurns | src/buddy_bot/history.py:55-74 | at most `limit` of the chat's newest turns, oldest first, each text cut to max_chars |
| History.ShowAll | src/buddy_bot/history.py:66-73 | one shown turn per row, in order |
| History.RecentTurnsIsolated | src/buddy_bot/history.py:60 | a turn saved for another chat changes nothing a chat sees |
| History.SavedTurnIsNewest | src/buddy_bot/history.py:46-74 | a turn just saved is the newest turn its chat sees (unless the limit is 0) |
| History.HistoryStore.constructor | src/buddy_bot/history.py:16-44 | opening the database keeps the turns, the last AUTOINCREMENT id and the fallback rows it already holds (CREATE TABLE IF NOT EXISTS) |
| History.HistoryStore.SaveTurn | src/buddy_bot/history.py:46-53 | appends one row with a fresh id; the fallback table is unchanged |
| History.HistoryStore.GetRecentTurns | src/buddy_bot/history.py:55-74 | returns `RecentTurns` of the table; nothing changes |
| History.HistoryStore.SaveFallback | src/buddy_bot/history.py:76-85 | an upsert: at most one fallback per chat, the latest wins, stored as given; turns unchanged |
| History.HistoryStore.GetFallback | src/buddy_bot/history.py:87-98 | returns the chat's fallback if there is one and deletes it |
| History.HistoryStore.ClearFallback | src/buddy_bot/history.py:100-104 | no fallback is left for the chat, other chats keep theirs, and clearing twice is clearing once |
| History.FallbackAfterTake | src/buddy_bot/history.py:87-104 | clearing or saving right after a take is the same as clearing or saving directly |
| History.TakeTwice | src/buddy_bot/history.py:87-98 | consume-once: the second immediate get returns None, and other chats keep theirs |
| Todo.BeforeAsymmetric | src/buddy_bot/todo.py:75 | the listing order is a strict order |
| Todo.BeforeTotal | src/buddy_bot/todo.py:75 | rows with different ids are always ordered one way or the other (id ASC breaks ties) |
| Todo.BeforeTransitive | src/buddy_bot/todo.py:75 | the listing order is transitive |
| Todo.DueBeforeAsymmetric | src/buddy_bot/todo.py:75 | due_date ASC NULLS LAST is a strict order |
| Todo.Insert | src/buddy_bot/todo.py:75 | inserting into a sorted listing keeps it sorted and adds exactly that row |
| Todo.Sort | src/buddy_bot/todo.py:75 | ORDER BY priority rank (unknown first), due date (nulls last), id: sorted and a permutation |
| Todo.SortedIsStrict | src/buddy_bot/todo.py:75 | with distinct ids, every earlier row of a sorted listing comes strictly before every later one |
| Todo.QueryMeansWanted | src/buddy_bot/todo.py:64-73 | the WHERE clause built step by step holds iff the row is the chat's, has the status when one is given, and has a due date ≤ today + days_ahead when days_ahead is given |
| Todo.Select | src/buddy_bot/todo.py:77 | keeps exactly the rows meeting every condition, each at most as often as in the table |
| Todo.ListingSpec | src/buddy_bot/todo.py:58-78 | a listing holds exactly the wanted rows, no row more often than in the table, sorted |
| Todo.ListedItems | src/buddy_bot/todo.py:78 | an item is listed iff it comes from a wanted row |
| Todo.SelectIgnoresOtherChats | src/buddy_bot/todo.py:64 | rows of another chat never show up in or change a listing |
| Todo.FindRow | src/buddy_bot/todo.py:86-88 | finds the (id, chat) row, or None when there is none |
| Todo.FindAfterMark | src/buddy_bot/todo.py:80-89 | after the update the lookup finds that row, now done |
| Todo.Without | src/buddy_bot/todo.py:91-96 | removes exactly the (id, chat) row; the length drops iff such a row existed |
| Todo.WithoutKeepsIds | src/buddy_bot/todo.py:91-96 | deleting keeps ids increasing and under the counter, so ids are never reused |
| Todo.IdsIncreasingSnoc | src/buddy_bot/todo.py:28-29 | a row with an id above the old counter keeps the ids increasing |
| Todo.TodoStore.Add | src/buddy_bot/todo.py:45-56 | stores a "pending" row for the chat with an id above every id ever issued and returns it |
| Todo.TodoStore.List | src/buddy_bot/todo.py:58-78 | returns the items of `Listing`: the chat's rows, filtered, in the listing order |
| Todo.TodoStore.Complete | src/buddy_bot/todo.py:80-89 | marks the (id, chat) row done with completed_at and returns it, or None when there is no such row |
| Todo.TodoStore.Delete | src/buddy_bot/todo.py:91-96 | removes the (id, chat) row and returns true iff one existed |
| Todo.CompleteTwice | src/buddy_bot/todo.py:80-89 | completing twice returns the item both times, and another chat cannot complete it |
| TodoTools.ChatIdOf | src/buddy_bot/tools/todo.py:73-74 | chat_id_ref["chat_id"], or "default" when the key is missing |
| TodoTools.OptionalString | src/buddy_bot/tools/todo.py:78-79 | an absent or null argument is None; a string is kept |
| TodoTools.RequiredString | src/buddy_bot/tools/todo.py:77 | `input[key]`: a missing key raises KeyError |
| TodoTools.RequiredInt | src/buddy_bot/tools/todo.py:107 | `input["todo_id"]`: a missing key raises KeyError |
| TodoTools.AddArgsOf | src/buddy_bot/tools/todo.py:77-79 | title is required; due_date defaults to None and priority to "medium" |
| TodoTools.ListArgsOf | src/buddy_bot/tools/todo.py:90-91 | status and days_ahead are optional |
| TodoTools.HandleAdd | src/buddy_bot/tools/todo.py:76-87 | a bad argument raises before the store is touched; otherwise one row is added and echoed |
| TodoTools.HandleList | src/buddy_bot/tools/todo.py:89-104 | one record per listed item, in store order; the store is unchanged |
| TodoTools.HandleComplete | src/buddy_bot/tools/todo.py:106-115 | the completed record, or {"error": "Todo #<id> not found"} when the store returns None |
| TodoTools.HandleDelete | src/buddy_bot/tools/todo.py:117-122 | {"status": "deleted", "todo_id": id} on success, else the not-found error |
| TodoTools.RegisterTodoTools | src/buddy_bot/tools/todo.py:124-147 | the registry gains the four todo tools, registered in the order add, list, complete, delete, so new names follow the existing ones in that order |
| TodoTools.RegisteredTodoNames | src/buddy_bot/tools/todo.py:124-147 | exactly todo_add, todo_list, todo_complete and todo_delete are added; other entries stay |
| TodoTools.AddThenList | src/buddy_bot/tools/todo.py:76-104 | an added item shows up in its chat's listing and not in another chat's |
| Bot.IsAuthorized | src/buddy_bot/bot.py:19-20 | true iff the chat id is in the allowed list |
| Bot.ExtractEvent | src/buddy_bot/bot.py:23-39 | None iff there is no message or both text and caption are empty; text takes precedence over caption; the sender defaults to "unknown" |
| Bot.CutIndex | src/buddy_bot/bot.py:54-63 | the last "\n\n" inside the window, else the last "\n", else the last " ", else a hard cut at max_length |
| Bot.SplitStepProgressIff | src/buddy_bot/bot.py:60-66 | a round shortens the text unless the only break is a space at index 0, which returns the text unchanged |
| Bot.SplitStepStuck | src/buddy_bot/bot.py:60-66 | a space at index 0 with no other break in the window: each round appends "" and the loop never ends |
| Bot.DefaultLimitCounterexample | src/buddy_bot/bot.py:42-66 | " " + "a"·5000 with the default 4096 is such an input |
| Bot.NoSpaceTerminates | src/buddy_bot/bot.py:48-66 | a text without spaces always gets through |
| Bot.RestIsSuffix | src/buddy_bot/bot.py:65-66 | what a round leaves is a suffix of the text |
| Bot.SplitMessage | src/buddy_bot/bot.py:42-68 | as written, for texts it terminates on: the chunks are those of `Chunks`, each round cutting at `CutIndex` and stripping leading newlines from the rest; [text] when it fits; every chunk ≤ max_length; only newlines are dropped |
| Bot.FixedCutIndex | src/buddy_bot/bot.py:54-63 | the corrected cut: an index-0 break is replaced by a hard cut, otherwise the cut is unchanged |
| Bot.SplitMessageFixed | src/buddy_bot/bot.py:42-68 | corrected version, for every text: terminates with the chunks of `FixedChunks`, each round cutting at `FixedCutIndex`; [text] when it fits; every chunk fits and none is empty; only newlines are dropped |
| Prompt.Format | src/buddy_bot/prompt.py:41 | `str.format` with one named field succeeds iff every field has that name |
| Prompt.SystemPromptFillsPlaceholder | src/buddy_bot/prompt.py:7-41 | the template's single `{current_datetime}` field is filled: the prompt is its fixed text followed by the date |
| Prompt.TurnLines | src/buddy_bot/prompt.py:55-57 | "User: …" then "Assistant: …" per turn, in input order |
| Prompt.EventItems | src/buddy_bot/prompt.py:64-67 | one text/from/timestamp item per event, in order, with missing keys read as "" |
| Prompt.Sections | src/buddy_bot/prompt.py:50-74 | history (iff there are turns), retrieval instructions, new messages, fallback (iff non-empty), in that order |
| Prompt.UserPromptOpening | src/buddy_bot/prompt.py:53-61 | the prompt opens with the history header and the first turn when there are turns, else with the retrieval instructions |
| Prompt.UserPromptClosing | src/buddy_bot/prompt.py:68-76 | the prompt closes with the fallback section iff fallback_text is non-empty, else with the new-messages section |
| Prompt.HistorySectionOpening | src/buddy_bot/prompt.py:54-58 | the history section starts "Recent conversation:\nUser: <first turn>" |
| Progress.FormatToolProgress | src/buddy_bot/progress.py:31-44 | the message for the base name, or None when the table lacks it |
| Progress.UnprefixedLookedUpAsIs | src/buddy_bot/progress.py:38-44 | a name without "mcp__" is looked up unchanged |
| Progress.ServerPrefixStripped | src/buddy_bot/progress.py:39-42 | "mcp__<server>__<tool>" is looked up as <tool>, which may itself contain "__" |
| Progress.ShortMcpNameKept | src/buddy_bot/progress.py:40-42 | an "mcp__" name with fewer than three parts is looked up whole |
| Progress.ProgressCoversTools | src/buddy_bot/progress.py:4-28 | TOOL_PROGRESS keys are exactly the names in the MCP server's TOOLS list and the 4 memory tools |
| Progress.UnderscoreFreeServer | src/buddy_bot/progress.py:39-42 | a server name without "_" satisfies the stripping lemma's condition |
| Email.FirstMatch | src/buddy_bot/tools/email.py:55-56 | the index of the first header whose name matches case-insensitively, or none |
| Email.GetHeaderIsFirstMatch | src/buddy_bot/tools/email.py:54-58 | the value of the first matching header (a missing value gives "") |
| Email.GetHeaderAbsent | src/buddy_bot/tools/email.py:58 | "" when no header matches |
| Email.GetHeaderIgnoresCase | src/buddy_bot/tools/email.py:56 | asking in upper or lower case gives the same answer |
| Email.FirstPart | src/buddy_bot/tools/email.py:68-75 | the first part with data (text/plain only, or any type) |
| Email.ChosenData | src/buddy_bot/tools/email.py:61-77 | the data chosen is never empty |
| Email.ChosenHasData | src/buddy_bot/tools/email.py:64-77 | the chosen data is the top-level text/plain body, else the first text/plain part with data, else the first part with data; none iff none of these exists |
| Email.PlainPartPreferred | src/buddy_bot/tools/email.py:68-70 | without a usable top-level body, the first text/plain part with data wins |
| Email.FirstDataPartFallback | src/buddy_bot/tools/email.py:72-75 | without any text/plain candidate, the first part with data wins; a part lacking data is never chosen |
| Email.DecodeBody | src/buddy_bot/tools/email.py:61-77 | "(no body)" when nothing is chosen; otherwise the UTF-8 decoding, with replacement, of the URL-safe base64 decoding of the chosen data, raising only on bad base64 |
| Email.ChosenBodyRoundTrip | src/buddy_bot/tools/email.py:61-77 | whichever part is chosen, base64 of the UTF-8 of a text decodes back to that text |
| Email.PlainBodyRoundTrip | src/buddy_bot/tools/email.py:64-65 | a top-level text/plain body encoded as UTF-8 and base64 decodes back to the text |
| Email.RegisterEmailTools | src/buddy_bot/tools/email.py:175-192 | the registry gains the three e-mail tools, registered in the order list, read, send, so new names follow the existing ones in that order |
| Email.RegisteredEmailNames | src/buddy_bot/tools/email.py:175-192 | exactly email_list_messages, email_read_message and email_send_message are added |
| Base64.Decode | src/buddy_bot/tools/email.py:65 | URL-safe base64 (section 5 of RFC 4648) decoding, with an error for bad input |
| Base64.RoundTrip | src/buddy_bot/tools/email.py:65 | decoding inverts encoding |
| Utf8.Decode | src/buddy_bot/tools/email.py:65 | UTF-8 decoding with U+FFFD replacement |
| Utf8.RoundTrip | src/buddy_bot/tools/email.py:65 | decoding the UTF-8 encoding of a string gives the string |
| Utf8.BadLeadReplaced | src/buddy_bot/tools/email.py:65 | an invalid lead byte becomes one U+FFFD |
| Utf8.TruncatedReplacedOnce | src/buddy_bot/tools/email.py:65 | a truncated sequence becomes one U+FFFD |
| Utf8.AsciiDecodes | src/buddy_bot/tools/email.py:65 | ASCII bytes decode to themselves |
| PyRepr.StrReprRoundTrip | src/buddy_bot/executor.py:98 | the quoted `repr` of each text in the failure note can be read back to that text |
| Config.ParseIds | src/buddy_bot/config.py:40-42 | `[int(x.strip()) for x in pieces if x.strip()]`: at most one id per piece |
| Config.ParseIdsOkIff | src/buddy_bot/config.py:40-42 | raises exactly when some non-blank piece is not an integer literal |
| Config.ParseChatIds | src/buddy_bot/config.py:38-43 | a string is split on ",", stripped, blanks dropped and converted in order; a non-string passes through unchanged |
| Config.ChatIdsRoundTrip | src/buddy_bot/config.py:38-42 | the comma-joined decimal forms of a list of ids parse back to that list |
| Config.BlankPieceDropped | src/buddy_bot/config.py:41 | a blank piece adds nothing |
| Config.ValidateLogLevel | src/buddy_bot/config.py:45-51 | accepted iff the upper-cased name is an int level of `logging`, and then the upper-cased name is stored |
| Config.LogLevelIdempotent | src/buddy_bot/config.py:45-51 | a stored level validates to itself |
| Config.LogLevelIgnoresCase | src/buddy_bot/config.py:48 | "debug" and "DEBUG" are treated alike |
| Config.ParseTelegramMode | src/buddy_bot/config.py:32 | only "polling" or "webhook" are accepted |
| Config.ValidateWebhookConfig | src/buddy_bot/config.py:53-57 | rejected iff the mode is webhook with an empty url; polling never needs a url |
| Config.BuildAcceptsExactly | src/buddy_bot/config.py:11-57 | settings are built iff every validator accepts; the stored values are the validated ones, with debounce 5, history_turns 20, history_max_chars 500, fallback_max_chars 4000 |
| Config.DefaultsValid | src/buddy_bot/config.py:20-36 | the defaults pass every validator |

## Findings

| source | as written | input that shows it | evidently intended | confidence | as-written member | corrected member |
|---|---|---|---|---|---|---|
| src/buddy_bot/bot.py:54-66 | when the only break in the window is a space at index 0, `split_idx` is 0; "" is appended and the text comes back unchanged, so the loop never ends. A newline at index 0 likewise yields an empty chunk | `" " + "a" * 5000` with the default max_length 4096 | a break at index 0 is treated as no break, so the text is cut hard at max_length; every round then shortens the text and no chunk is empty | high (proved; not executed) | Bot.SplitStepStuck | Bot.SplitMessageFixed |

## Left out

- Debounce timing: the `asyncio.Event` / `wait_for` quiet-period loop, the 30-second pause and every retry sleep. Drain is one atomic take-all step. A debounce turn is `ClearWake`. Sleeps are recorded as a list of delays, or as a point where more events may arrive.
- Concurrency: `asyncio.Lock` serialisation, `create_task` and the typing indicator. Only the lock tables' memoisation and the rule by which `on_message` starts a processing loop are modelled. Events reaching a buffer while its loop runs are an input (`Arrival`).
- The shutdown flag of `_processing_loop` never decides anything in the model. The buffer is non-empty at every loop head, so the loop condition always holds there. The `if not events: break` after a drain is unreachable (an assert states so).
- Subprocess I/O, timeouts, `kill`/`wait`: process outcomes are a datatype. The timeout and exit-code error messages are fixed strings without the number of seconds or the stderr text.
- The Anthropic SDK: responses are lists of text/tool_use/other blocks with a stop reason. Errors are tags (rate limit, server error, 529, other). The model's answers are an input indexed by round and attempt, not a function of the request, so `Answer` states what comes back and `Generate` states separately what is sent (system prompt and conversation).
- `build_prompt`, which executor.py imports, is not defined in prompt.py; the executor's prompt is not modelled.
- Telegram transport: `create_application`, `react_eyes`, `extract_voice_event`, `send_response`. A send is an `Effect`, and a failed trouble notice is swallowed.
- Network clients and their handlers: graphiti.py, speechkit.py, search, perplexity, calendar, google_auth, the Gmail handlers, tools/memory.py, tools/time.py and the MCP stdio `main`.
- JSON: `json.dumps` is a parameter, and `json.loads` failure is an input tag.
- Floats: elapsed_ms is a parameter; temperature is not modelled; backoff delays are reals.
- Config environment loading, caching and logging. `int()` is restricted to optional sign and digits, without surrounding whitespace or underscores.
- Bot.SplitMessage: proved only for texts on which its loop ends (the `SplitTerminates` precondition), because the code as written loops forever otherwise. `max_length` must be at least 1: with 0 the code also never ends.
- Prompt.SystemPromptFillsPlaceholder: the template is modelled as its literal pieces around the one `{current_datetime}` field. The long fixed text is not checked character by character for braces.
- Base64.Decode: accepts only canonical, padded input. A character outside the URL-safe alphabet is an error rather than skipped, and data after a completing pad is an error rather than ignored, where Python's non-strict `urlsafe_b64decode` discards both.
- Email.FirstMatch: header names are compared after ASCII-only lower-casing; Python's `str.lower` also maps non-ASCII letters, so non-ASCII header names can compare differently.
- Email.GetHeaderIsFirstMatch: inherits the ASCII-only case folding of `FirstMatch`.
- Email.GetHeaderIgnoresCase: case-insensitive for ASCII letters only.
- Config.ValidateLogLevel: upper-cases with ASCII-only mapping; Python's `str.upper` maps more, so a name such as "ınfo" (dotless i) is accepted by Python as "INFO" and rejected by the model.
- Config.LogLevelIgnoresCase: holds for ASCII letters only, as `ValidateLogLevel` does.
- TodoTools.OptionalString: an argument whose JSON type differs from the schema is rejected rather than handed on to SQLite, which would coerce it by column affinity or fail with its own error.
- TodoTools.RequiredString: a non-string title or chat_id is rejected; Python hands it on to SQLite, which stores a number as TEXT and fails on null with an IntegrityError.
- TodoTools.RequiredInt: a non-integer todo_id is rejected; Python hands it on to SQLite, where a numeric string such as "3" matches id 3.
- TodoTools.AddArgsOf: mistyped title, due_date or priority arguments are rejected rather than coerced, as for `RequiredString` and `OptionalString`.
- TodoTools.ListArgsOf: a non-integer days_ahead is rejected; Python accepts a numeric string through `str(days_ahead)`.
- PyRepr.StrReprRoundTrip: repr() is modelled with escapes below U+00A1 only; Python also escapes the non-printable characters above that (U+2028, say), which the model writes as they are.
