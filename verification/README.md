# codex-mcp: the task registry and conversation store, verified

`src/codex_mcp/server.py` is an MCP server that forwards prompts to an OpenAI
chat model. It has two kinds of tool. `codex_exec` answers synchronously.
`codex_async` returns a task id at once and answers later through
`codex_poll`. Its only state is two process-wide dictionaries:

- `_conversations` maps a conversation id to its message list. The list is the
  context window sent to the model, and it grows by one user turn before each
  backend call and by one assistant turn after each successful one.
- `_tasks` maps a task id to a record. The record starts `running` and is
  settled once, as `completed` or `error`, by the detached worker `_run`.

This project models that state machine in Dafny:

- `builtins.dfy` (module `Builtins`): Python's `None`, an insertion-ordered `dict`
  with string keys, and the slice `s[:n]`.
- `config.dfy` (`Config`): `DEFAULT_MODEL` and `SYSTEM_PROMPT` read from the
  environment, and the model defaulting of both tools.
- `conversations.dfy` (`Conversations`): `_call_codex` as pure functions of the
  store. `Begin` resolves the history and appends the user turn. `Finish`
  appends the assistant turn and stores the history once the backend has
  answered. `CallStore` is the two steps back to back. The lemmas state what one
  call and several calls do to the store.
- `registry.dfy` (`Registry`): task records, the worker's settlement, and the
  `codex_poll` projection.
- `server.dfy` (`Server`): the class `CodexServer`. Its fields are the two maps.
  Its methods are the tools and the worker. Each method's new state is tied to the
  functions above.

The backend call is an `Outcome` supplied by the caller: `Ok(reply)` or
`Err(text of the exception)`. Ids that `uuid.uuid4()` would draw are parameters
that must not already be keys. The timestamp `datetime.now()` would read is a
parameter too.

A task's `status`, `result` and `conversation_id` fields are modelled together
as one value: `Running`, `Completed(reply, conversationId)` or `Failed(error)`.
A record whose fields disagree cannot be built. In the code such a record never
arises either.

A call in flight on a known conversation is `Continuing(id)`. Python's local
`messages` is the stored list itself, so the model re-reads it from the store
when the call finishes. This gives the same result as the aliasing, even when
another call on that conversation overlaps (`OverlappingCalls`). A new
conversation's list is private, `Starting(id, messages)`, and reaches the
store only on success.

Behaviour that follows the code, not the tool descriptions:

- A failed backend call on a known conversation leaves the user turn in the
  stored history, because the list was already changed in place (line 51).
  No assistant turn follows it, and the next call sends two user turns in a
  row (`FailedContinuation`, `RetryAfterFailure`).
- A failed call that started a new conversation stores nothing
  (`FailedNewConversation`).
- The resolved model is guaranteed non-empty only while `DEFAULT_MODEL` is. An environment
  that sets `CODEX_MODEL` to the empty string gives an empty model for a request
  that names none (`EmptyVariableGivesEmptyModel`).
- The tool docstrings (lines 72 and 95) call `gpt-5.1` the default, but the code
  falls back to `gpt-4.1` (line 16). The model follows the code.

## Model

| member | source | states |
|---|---|---|
| `Config.FromEnvironment` | src/codex_mcp/server.py:16-20 | A variable that is set, even to the empty string, gives the setting. An unset one gives the built-in fallback `gpt-4.1` or the built-in system prompt. |
| `Config.ResolveModel` | src/codex_mcp/server.py:75 | A non-empty requested model is used as is. An empty one is replaced by the default. The result is always one of the two. |
| `Config.ResolvedModelNonEmpty` | src/codex_mcp/server.py:98 | While the default model is non-empty, the resolved model is never empty. |
| `Config.UnsetVariableNamesAModel` | src/codex_mcp/server.py:16 | With `CODEX_MODEL` unset, every request resolves to a non-empty model. |
| `Config.EmptyVariableGivesEmptyModel` | src/codex_mcp/server.py:16 | With `CODEX_MODEL` set to the empty string, a request that names no model resolves to the empty model. |
| `Conversations.Begin` | src/codex_mcp/server.py:45-51 | The call in flight gets the resolved id, and what it sends is the resolved history plus the user turn. A known conversation is changed in the store at once; for a new one the store is unchanged. The key order is kept. |
| `Conversations.Resolve` | src/codex_mcp/server.py:45-49 | A known id comes back with its stored list. Any other id is replaced by the fresh id, with a list holding one system turn. |
| `Conversations.Finish` | src/codex_mcp/server.py:59-61 | On a reply, the list in flight plus the assistant turn is stored under the call's id. An existing id keeps its place; a new id goes to the end. On an exception the store is exactly as before. |
| `Conversations.Answer` | src/codex_mcp/server.py:63 | A reply is returned with the call's conversation id. An exception passes through with its text, and no reply is returned. |
| `Conversations.CallStore` | src/codex_mcp/server.py:41-63 | One whole call keeps the store valid and only ever appends keys to the insertion order. |
| `Conversations.ResolveOrCreate` | src/codex_mcp/server.py:45-49 | A given, known id reuses its stored list. An empty or unknown id gets the fresh id and a list holding exactly one system turn. The caller's id is returned exactly when it was known. |
| `Conversations.RequestFramesPrompt` | src/codex_mcp/server.py:49-57 | The message list sent to the backend starts with the system turn and ends with the new user turn. |
| `Conversations.SuccessfulCall` | src/codex_mcp/server.py:51-61 | On success the resolved history plus the user and assistant turns is stored under the returned id. Every other conversation is unchanged. A new id goes to the end of the order. |
| `Conversations.FailedContinuation` | src/codex_mcp/server.py:45-61 | A failed call on a known conversation leaves its stored history with exactly one extra user turn and no assistant turn. The keys are unchanged. |
| `Conversations.FailedNewConversation` | src/codex_mcp/server.py:47-61 | A failed call that started a new conversation leaves the store exactly as it was. |
| `Conversations.CallKeepsSeeded` | src/codex_mcp/server.py:49-61 | Every stored history keeps its system turn first and has no system turn anywhere else. |
| `Conversations.CallKeepsAnswered` | src/codex_mcp/server.py:51-61 | Calls made one after another, whether they succeed or fail, keep every assistant turn right after a user turn. |
| `Conversations.ConsecutiveCalls` | src/codex_mcp/server.py:45-63 | Two successful calls, the second on the id the first returned, leave exactly `[system, user:P1, assistant:R1, user:P2, assistant:R2]`. |
| `Conversations.RetryAfterFailure` | src/codex_mcp/server.py:46-60 | A failed call followed by a successful one on the same known conversation appends `user:P1, user:P2, assistant:R`. |
| `Conversations.OverlappingCalls` | src/codex_mcp/server.py:46-61 | Two overlapping calls on one known conversation append `user:P1, user:P2, assistant:R1, assistant:R2`, which breaks the question/answer pairing. |
| `Conversations.LastUserIndex` | src/codex_mcp/server.py:178 | Gives the position of a user turn with no user turn after it, or none when the history has no user turn. |
| `Conversations.LastUserPreview` | src/codex_mcp/server.py:178 | The preview is the first 80 characters of the most recent user turn's content. It is `""` when the history has no user turn. |
| `Registry.StatusName` | src/codex_mcp/server.py:111-115 | The status string is `running`, `completed` or `error`, each for exactly one state. |
| `Registry.ResultText` | src/codex_mcp/server.py:105-116 | `result` is `None` exactly while the task runs. It then holds the reply on completion or the error text on failure. |
| `Registry.Submitted` | src/codex_mcp/server.py:100-106 | A new record is running, has no result, and holds the prompt, the resolved model and the submission time. |
| `Registry.Settle` | src/codex_mcp/server.py:108-116 | The worker leaves the task terminal. It is completed exactly when the call replied, with the reply as result and the conversation id; otherwise it is failed with the error text. Prompt, model and submission time are unchanged. |
| `Registry.View` | src/codex_mcp/server.py:138-150 | The poll view gives the status, the model, and exactly the first 100 characters of the prompt (all of it when shorter). It has a response and conversation id exactly when completed, and an error exactly when failed. |
| `Registry.Unknown` | src/codex_mcp/server.py:135-136 | An unknown id gets the error `Unknown task_id: <id>`. |
| `Registry.PollAcrossSettle` | src/codex_mcp/server.py:100-150 | A submitted task polls as running with no response or error. After its worker it polls as completed with the reply, or as error with the error text, with the same model and prompt. |
| `Server.CodexServer.constructor` | src/codex_mcp/server.py:25-26 | The server starts with no tasks, no conversations and no scheduled workers. |
| `Server.CodexServer.BeginCall` | src/codex_mcp/server.py:45-51 | The store becomes `Begin`'s store. The request carries the model and the list in flight. Tasks are untouched. |
| `Server.CodexServer.FinishCall` | src/codex_mcp/server.py:59-63 | The store becomes `Finish`'s store. The result is the reply with the call's id, or the exception text. Tasks are untouched. |
| `Server.CodexServer.CallCodex` | src/codex_mcp/server.py:41-63 | The store becomes `CallStore` of the old store. The result carries the resolved id. Question/answer pairing is preserved. Tasks are untouched. |
| `Server.CodexServer.Exec` | src/codex_mcp/server.py:67-86 | On success the payload holds the resolved model, the resolved conversation id and the reply; on failure it holds the error text. The store changes as for one call, and tasks are untouched. |
| `Server.CodexServer.Poll` | src/codex_mcp/server.py:129-152 | An unknown id gives the not-found answer; a known id gives the record's view. Being a function, polling cannot change any state. |
| `Server.CodexServer.SubmitAsync` | src/codex_mcp/server.py:90-125 | It inserts a running record under the new task id, with the prompt, the resolved model and the time, and schedules exactly one worker for it. The task then polls as running. Every other task polls as before, and conversations are unchanged. |
| `Server.CodexServer.RunJob` | src/codex_mcp/server.py:108-118 | The worker's task was running. The worker performs one call on the store and settles only its own task: completed with the reply, or error with the text. Its worker is retired, so the task never changes again. Every other task polls as before. |
| `Server.CodexServer.ListTasks` | src/codex_mcp/server.py:156-167 | There is one entry per task, in insertion order, with its status, model, submission time and an 80-character prompt prefix. Every task appears. |
| `Server.CodexServer.ListConversations` | src/codex_mcp/server.py:171-180 | There is one entry per conversation, in insertion order. Each gives the history length and the preview of its most recent user turn. |
| `Server.AsyncRoundTrip` | src/codex_mcp/server.py:99-152 | On a new server, a task polls as running right after submission. After its worker it polls as completed, with the reply and the new conversation id, or as error with the error text. Both polls show the default model and the same 100-character prompt preview, and the first has no response or error. |

## Left out

- The OpenAI client (`_get_client`, lines 29-38) and the completion call (lines 53-59) are replaced by the `Outcome` parameter. A failure while building the client happens before any state changes and is not modelled. So is an answer with no choices: its `IndexError` leaves the same state as `Err`, because it is raised before line 60.
- A reply whose content is `None` is not modelled; replies are strings.
- Async scheduling (`asyncio.create_task`, line 118) is left out. Each store or registry update is one atomic step. `RunJob` performs its whole call without other steps in between. Overlapping calls are modelled only through `BeginCall`/`FinishCall` and the `OverlappingCalls` lemma.
- `uuid.uuid4()` (lines 48 and 99) is a fresh-id parameter that is not yet a key; a fresh conversation id must also be non-empty. A collision with an existing id, which would overwrite it, is not modelled.
- `datetime.now()` (line 104) is the `submittedAt` parameter.
- Among the environment variables, `API_BASE` and `API_KEY` (lines 14-15) only configure the client and are left out.
- JSON formatting (`json.dumps`, `ensure_ascii`, `indent`), the `hint` strings, FastMCP tool registration and `main` (lines 22, 66, 89, 128, 155, 170, 183-188) are transport and presentation.
- Python slices count code points; `Prefix` counts Dafny characters, and no text encoding is modelled.
