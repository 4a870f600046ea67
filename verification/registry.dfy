/** The task records of `_tasks` (src/codex_mcp/server.py:99-116) and the
    projection `codex_poll` makes of one record (src/codex_mcp/server.py:128-152).
    The listings are methods of `Server.CodexServer`. */
module Registry {
  import opened Builtins
  import opened Conversations

  /** Poll previews keep at most this many characters of the prompt (line 143). */
  const POLL_PREVIEW: nat := 100

  /** The `status` field together with what it governs: the `result` field and
      the `conversation_id` field that only a completed task has. */
  datatype Status = Running | Completed(reply: string, conversationId: string) | Failed(error: string)

  /** One record of `_tasks`. Prompt, model and submission time never change. */
  datatype Task = Task(prompt: string, model: string, submittedAt: string, status: Status)

  /** The string stored in `status`. */
  function StatusName(s: Status): (name: string)
    ensures name == "running" <==> s.Running?
    ensures name == "completed" <==> s.Completed?
    ensures name == "error" <==> s.Failed?
  {
    match s
    case Running => "running"
    case Completed(_, _) => "completed"
    case Failed(_) => "error"
  }

  /** The `result` field: `None` while running, then the reply or the error text. */
  function ResultText(s: Status): (r: Option<string>)
    ensures r.None? <==> s.Running?
    ensures s.Completed? ==> r == Some(s.reply)
    ensures s.Failed? ==> r == Some(s.error)
  {
    match s
    case Running => None
    case Completed(reply, _) => Some(reply)
    case Failed(error) => Some(error)
  }

  /** Lines 100-106: the record a submission inserts. */
  function Submitted(prompt: string, model: string, submittedAt: string): (t: Task)
    ensures t.status.Running? && ResultText(t.status) == None
    ensures t.prompt == prompt && t.model == model && t.submittedAt == submittedAt
  {
    Task(prompt, model, submittedAt, Running)
  }

  /** Lines 109-116: the one write of the detached worker. A reply completes the
      task with the reply and the conversation id; an exception fails it with
      the exception's text. Nothing but the status changes. */
  function Settle(t: Task, r: CallResult): (s: Task)
    ensures s.prompt == t.prompt && s.model == t.model && s.submittedAt == t.submittedAt
    ensures !s.status.Running?
    ensures s.status.Completed? <==> r.Replied?
    ensures r.Replied? ==> ResultText(s.status) == Some(r.reply) && s.status.conversationId == r.conversationId
    ensures r.Raised? ==> ResultText(s.status) == Some(r.error)
  {
    match r
    case Replied(reply, cid) => t.(status := Completed(reply, cid))
    case Raised(error) => t.(status := Failed(error))
  }

  /** The payload of `codex_poll`, without its `hint`. Optional keys are `Option`s. */
  datatype PollReply =
    | UnknownTask(message: string)  // `{"status": "error", "error": message}`
    | TaskView(taskId: string, status: string, model: string, prompt: string,
               response: Option<string>, conversationId: Option<string>, error: Option<string>)

  /** Lines 138-150: the record as `codex_poll` shows it. The reply and the
      conversation id appear exactly when the task completed, the error text
      exactly when it failed, and the prompt is cut to its first 100 characters. */
  function View(taskId: string, t: Task): (v: PollReply)
    ensures v.TaskView? && v.taskId == taskId && v.status == StatusName(t.status) && v.model == t.model
    ensures v.prompt == Prefix(t.prompt, POLL_PREVIEW)
    ensures v.prompt <= t.prompt && |v.prompt| <= POLL_PREVIEW
    ensures |t.prompt| <= POLL_PREVIEW ==> v.prompt == t.prompt
    ensures v.response.Some? <==> t.status.Completed?
    ensures v.conversationId.Some? <==> t.status.Completed?
    ensures v.error.Some? <==> t.status.Failed?
    ensures t.status.Completed? ==> v.response == Some(t.status.reply) && v.conversationId == Some(t.status.conversationId)
    ensures t.status.Failed? ==> v.error == Some(t.status.error)
  {
    var base := TaskView(taskId, StatusName(t.status), t.model, Prefix(t.prompt, POLL_PREVIEW), None, None, None);
    match t.status
    case Running => base
    case Completed(reply, cid) => base.(response := Some(reply), conversationId := Some(cid))
    case Failed(error) => base.(error := Some(error))
  }

  /** Line 136: the answer for an id that was never submitted. */
  function Unknown(taskId: string): (v: PollReply)
    ensures v.UnknownTask? && v.message == "Unknown task_id: " + taskId
  {
    UnknownTask("Unknown task_id: " + taskId)
  }

  /** One entry of `codex_list_tasks`. */
  datatype TaskSummary = TaskSummary(taskId: string, status: string, model: string, prompt: string, submittedAt: string)

  /** Polling a task before and after its worker: `running` first, then the
      terminal view of the outcome, with the same prompt and model. */
  lemma PollAcrossSettle(taskId: string, prompt: string, model: string, submittedAt: string, r: CallResult)
    ensures var t := Submitted(prompt, model, submittedAt);
            var before := View(taskId, t);
            var after := View(taskId, Settle(t, r));
            && before.status == "running" && before.response.None? && before.error.None?
            && after.model == before.model && after.prompt == before.prompt
            && (r.Replied? ==> after.status == "completed" && after.response == Some(r.reply)
                               && after.conversationId == Some(r.conversationId) && after.error.None?)
            && (r.Raised? ==> after.status == "error" && after.error == Some(r.error) && after.response.None?)
  {
  }
}
