/** The MCP server's state and tools (src/codex_mcp/server.py): the two
    process-wide maps become the fields of one `CodexServer` object, and each
    tool a method on it. The backend call is an `Outcome` the caller supplies,
    and ids that `uuid.uuid4()` would draw and the time `datetime.now()` would
    read are parameters. */
module Server {
  import opened Builtins
  import opened Config
  import opened Conversations
  import opened Registry

  /** The payload of `codex_exec`, without its `hint`. */
  datatype ExecReply =
    | ExecSuccess(model: string, conversationId: string, response: string)
    | ExecError(error: string)

  /** The payload of `codex_async`, without its `hint`. */
  datatype Submission = Submission(taskId: string, model: string)

  /** The detached `_run` coroutine: what its closure captured. */
  datatype Job = Job(taskId: string, prompt: string, model: string, conversationId: string)

  /** One entry of `codex_conversations`. */
  datatype ConversationSummary = ConversationSummary(conversationId: string, messageCount: nat, lastUserMsg: string)

  class CodexServer {
    /** `DEFAULT_MODEL` and `SYSTEM_PROMPT`, read once at start. */
    const settings: Settings
    /** `_tasks`. */
    var tasks: Dict<Task>
    /** `_conversations`. */
    var conversations: Store
    /** The workers scheduled by `codex_async` that have not run yet, by task id. */
    ghost var workers: map<string, Job>

    ghost predicate Valid()
      reads this
    {
      && tasks.Valid()
      && conversations.Valid()
      && StoreSeeded(conversations, settings.systemPrompt)
      // a task is running exactly while its worker is outstanding
      && (forall id :: id in tasks.entries ==> (tasks.entries[id].status.Running? <==> id in workers))
      && (forall id :: id in workers ==>
            && id in tasks.entries
            && workers[id].taskId == id
            && workers[id].prompt == tasks.entries[id].prompt
            && workers[id].model == tasks.entries[id].model)
    }

    /** A fresh server: no tasks, no conversations. */
    constructor (settings: Settings)
      ensures Valid() && this.settings == settings
      ensures tasks == EmptyDict() && conversations == EmptyDict() && workers == map[]
    {
      this.settings := settings;
      tasks := EmptyDict();
      conversations := EmptyDict();
      workers := map[];
    }

    /** A call in flight that `FinishCall` can complete. */
    ghost predicate CanFinish(p: Pending)
      reads this
    {
      PendingSeeded(conversations, p, settings.systemPrompt)
    }

    /** Lines 45-51 of `_call_codex`, up to the backend call: resolve the
        history, append the user turn, and build the request. */
    method BeginCall(prompt: string, model: string, cid: string, freshId: string) returns (p: Pending, request: Request)
      requires Valid()
      requires freshId != "" && freshId !in conversations.entries
      modifies this
      ensures Valid() && CanFinish(p)
      ensures tasks == old(tasks) && workers == old(workers)
      ensures Step(conversations, p) == Begin(old(conversations), cid, freshId, settings.systemPrompt, prompt)
      ensures request == Request(model, Sent(conversations, p))
    {
      if IsKnown(conversations, cid) {
        AppendKeepsSeeded(conversations.entries[cid], settings.systemPrompt, Message(User, prompt));
        conversations := conversations.Put(cid, conversations.entries[cid] + [Message(User, prompt)]);
        p := Continuing(cid);
      } else {
        p := Starting(freshId, [SystemTurn(settings.systemPrompt), Message(User, prompt)]);
      }
      request := Request(model, Sent(conversations, p));
    }

    /** Lines 59-63 of `_call_codex`, after the backend call: on a reply append
        the assistant turn and store the history; on an exception pass it on. */
    method FinishCall(p: Pending, outcome: Outcome) returns (r: CallResult)
      requires Valid() && CanFinish(p)
      modifies this
      ensures Valid()
      ensures tasks == old(tasks) && workers == old(workers)
      ensures conversations == Finish(old(conversations), p, outcome)
      ensures r == Answer(p.id, outcome)
    {
      match outcome {
        case Ok(reply) =>
          AppendKeepsSeeded(Sent(conversations, p), settings.systemPrompt, Message(Assistant, reply));
          conversations := conversations.Put(p.id, Sent(conversations, p) + [Message(Assistant, reply)]);
          r := Replied(reply, p.id);
        case Err(error) =>
          r := Raised(error);
      }
    }

    /** `_call_codex` (lines 41-63) with no other call overlapping it. */
    method CallCodex(prompt: string, model: string, cid: string, freshId: string, outcome: Outcome) returns (r: CallResult)
      requires Valid()
      requires freshId != "" && freshId !in conversations.entries
      modifies this
      ensures Valid()
      ensures tasks == old(tasks) && workers == old(workers)
      ensures conversations == CallStore(old(conversations), cid, freshId, settings.systemPrompt, prompt, outcome)
      ensures r == Answer(Resolve(old(conversations), cid, freshId, settings.systemPrompt).0, outcome)
      ensures StoreAnswered(old(conversations)) ==> StoreAnswered(conversations)
    {
      ghost var before := conversations;
      var p, request := BeginCall(prompt, model, cid, freshId);
      r := FinishCall(p, outcome);
      if StoreAnswered(before) {
        CallKeepsAnswered(before, cid, freshId, settings.systemPrompt, prompt, outcome);
      }
    }

    /** `codex_exec` (lines 67-86): the synchronous tool. */
    method Exec(prompt: string, model: string, cid: string, freshId: string, outcome: Outcome) returns (reply: ExecReply)
      requires Valid()
      requires freshId != "" && freshId !in conversations.entries
      modifies this
      ensures Valid()
      ensures tasks == old(tasks) && workers == old(workers)
      ensures conversations == CallStore(old(conversations), cid, freshId, settings.systemPrompt, prompt, outcome)
      ensures outcome.Ok? ==> reply == ExecSuccess(ResolveModel(model, settings.defaultModel),
                                                    Resolve(old(conversations), cid, freshId, settings.systemPrompt).0,
                                                    outcome.reply)
      ensures outcome.Err? ==> reply == ExecError(outcome.error)
    {
      var useModel := ResolveModel(model, settings.defaultModel);
      var r := CallCodex(prompt, useModel, cid, freshId, outcome);
      match r {
        case Replied(text, convId) => reply := ExecSuccess(useModel, convId, text);
        case Raised(error) => reply := ExecError(error);
      }
    }

    /** `codex_poll` (lines 129-152): a read-only lookup. */
    function Poll(taskId: string): (v: PollReply)
      reads this
      ensures v.UnknownTask? <==> taskId !in tasks.entries
      ensures taskId !in tasks.entries ==> v == Unknown(taskId)
      ensures taskId in tasks.entries ==> v == View(taskId, tasks.entries[taskId])
    {
      if taskId !in tasks.entries then Unknown(taskId) else View(taskId, tasks.entries[taskId])
    }

    /** `codex_async` (lines 90-125): insert a running record under a fresh
        task id and schedule its worker, without waiting for it. */
    method SubmitAsync(prompt: string, model: string, cid: string, taskId: string, submittedAt: string)
      returns (ack: Submission, job: Job)
      requires Valid()
      requires taskId !in tasks.entries
      modifies this
      ensures Valid()
      ensures ack == Submission(taskId, ResolveModel(model, settings.defaultModel))
      ensures job == Job(taskId, prompt, ack.model, cid)
      ensures tasks == old(tasks).Put(taskId, Submitted(prompt, ack.model, submittedAt))
      ensures workers == old(workers)[taskId := job]
      ensures conversations == old(conversations)
      ensures Poll(taskId).TaskView? && Poll(taskId).status == "running"
      ensures forall id :: id != taskId ==> Poll(id) == old(Poll(id))
    {
      var useModel := ResolveModel(model, settings.defaultModel);
      tasks := tasks.Put(taskId, Submitted(prompt, useModel, submittedAt));
      job := Job(taskId, prompt, useModel, cid);
      workers := workers[taskId := job];
      ack := Submission(taskId, useModel);
    }

    /** `_run` (lines 108-116): the scheduled worker calls the backend through
        `_call_codex` and settles its own task, exactly once. */
    method RunJob(job: Job, freshId: string, outcome: Outcome)
      requires Valid()
      requires job.taskId in workers && workers[job.taskId] == job
      requires freshId != "" && freshId !in conversations.entries
      modifies this
      ensures Valid()
      ensures conversations == CallStore(old(conversations), job.conversationId, freshId, settings.systemPrompt, job.prompt, outcome)
      ensures tasks.keys == old(tasks.keys)
      ensures tasks.entries == old(tasks.entries)[job.taskId := Settle(old(tasks.entries[job.taskId]),
          Answer(Resolve(old(conversations), job.conversationId, freshId, settings.systemPrompt).0, outcome))]
      ensures workers == old(workers) - {job.taskId}
      ensures old(Poll(job.taskId)).status == "running"
      ensures outcome.Ok? ==> Poll(job.taskId).status == "completed" && Poll(job.taskId).response == Some(outcome.reply)
      ensures outcome.Err? ==> Poll(job.taskId).status == "error" && Poll(job.taskId).error == Some(outcome.error)
      ensures forall id :: id != job.taskId ==> Poll(id) == old(Poll(id))
    {
      var r := CallCodex(job.prompt, job.model, job.conversationId, freshId, outcome);
      tasks := tasks.Put(job.taskId, Settle(tasks.entries[job.taskId], r));
      workers := workers - {job.taskId};
    }

    /** `codex_list_tasks` (lines 156-167): one summary per task, in the order
        the tasks were submitted. */
    method ListTasks() returns (summary: seq<TaskSummary>)
      requires Valid()
      ensures |summary| == |tasks.keys|
      ensures forall i :: 0 <= i < |summary| ==>
                && summary[i].taskId == tasks.keys[i]
                && tasks.keys[i] in tasks.entries
                && var t := tasks.entries[tasks.keys[i]];
                && summary[i].status == StatusName(t.status)
                && summary[i].model == t.model
                && summary[i].prompt == Prefix(t.prompt, LIST_PREVIEW)
                && summary[i].submittedAt == t.submittedAt
      ensures forall id :: id in tasks.entries ==> exists i :: 0 <= i < |summary| && summary[i].taskId == id
    {
      summary := [];
      for i := 0 to |tasks.keys|
        invariant |summary| == i
        invariant forall j :: 0 <= j < i ==>
                    && summary[j].taskId == tasks.keys[j]
                    && tasks.keys[j] in tasks.entries
                    && var t := tasks.entries[tasks.keys[j]];
                    && summary[j].status == StatusName(t.status)
                    && summary[j].model == t.model
                    && summary[j].prompt == Prefix(t.prompt, LIST_PREVIEW)
                    && summary[j].submittedAt == t.submittedAt
      {
        var tid := tasks.keys[i];
        var t := tasks.entries[tid];
        summary := summary + [TaskSummary(tid, StatusName(t.status), t.model, Prefix(t.prompt, LIST_PREVIEW), t.submittedAt)];
      }
      forall id | id in tasks.entries
        ensures exists i :: 0 <= i < |summary| && summary[i].taskId == id
      {
        var i :| 0 <= i < |tasks.keys| && tasks.keys[i] == id;
        assert summary[i].taskId == id;
      }
    }

    /** `codex_conversations` (lines 171-180): one summary per conversation, in
        the order they were created. */
    method ListConversations() returns (convs: seq<ConversationSummary>)
      requires Valid()
      ensures |convs| == |conversations.keys|
      ensures forall i :: 0 <= i < |convs| ==>
                && convs[i].conversationId == conversations.keys[i]
                && conversations.keys[i] in conversations.entries
                && var h := conversations.entries[conversations.keys[i]];
                && convs[i].messageCount == |h|
                && convs[i].lastUserMsg == LastUserPreview(h)
    {
      convs := [];
      for i := 0 to |conversations.keys|
        invariant |convs| == i
        invariant forall j :: 0 <= j < i ==>
                    && convs[j].conversationId == conversations.keys[j]
                    && conversations.keys[j] in conversations.entries
                    && var h := conversations.entries[conversations.keys[j]];
                    && convs[j].messageCount == |h|
                    && convs[j].lastUserMsg == LastUserPreview(h)
      {
        var cid := conversations.keys[i];
        var msgs := conversations.entries[cid];
        convs := convs + [ConversationSummary(cid, |msgs|, LastUserPreview(msgs))];
      }
    }
  }

  /** The asynchronous round trip of a fresh server: right after submission the
      task polls as running; after its worker it polls as completed with the
      reply, or as failed with the error text. */
  method AsyncRoundTrip(settings: Settings, prompt: string, taskId: string, submittedAt: string, freshId: string, outcome: Outcome)
    returns (before: PollReply, after: PollReply)
    requires freshId != ""
    ensures before.TaskView? && before.taskId == taskId && before.status == "running"
    ensures before.model == settings.defaultModel && before.response.None? && before.error.None?
    ensures after.TaskView? && after.taskId == taskId && after.model == settings.defaultModel
    ensures after.prompt == before.prompt == Prefix(prompt, POLL_PREVIEW)
    ensures outcome.Ok? ==> after.status == "completed" && after.response == Some(outcome.reply)
                            && after.conversationId == Some(freshId)
    ensures outcome.Err? ==> after.status == "error" && after.error == Some(outcome.error)
  {
    var server := new CodexServer(settings);
    var ack, job := server.SubmitAsync(prompt, "", "", taskId, submittedAt);
    before := server.Poll(taskId);
    server.RunJob(job, freshId, outcome);
    after := server.Poll(taskId);
  }
}
