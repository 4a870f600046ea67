/** The conversation store `_conversations` and the logic of `_call_codex`
    (src/codex_mcp/server.py:41-63), as functions of the store.

    `_call_codex` works in two steps separated by the backend call: it resolves
    the history and appends the user turn (`Begin`), then, once the backend has
    answered, appends the assistant turn and stores the history (`Finish`). A
    backend call that raises skips the second step entirely. */
module Conversations {
  import opened Builtins

  datatype Role = System | User | Assistant

  /** One `{"role": ..., "content": ...}` entry of a message list. */
  datatype Message = Message(role: Role, content: string)

  type History = seq<Message>

  /** `_conversations`: conversation id to message list, in insertion order. */
  type Store = Dict<History>

  /** What the backend call came to: the reply text, or the text of the
      exception it raised. */
  datatype Outcome = Ok(reply: string) | Err(error: string)

  /** What `_call_codex` returns, `(reply, conversation_id)`, or the exception
      it lets through to its caller. */
  datatype CallResult = Replied(reply: string, conversationId: string) | Raised(error: string)

  /** The local `messages` of a call in flight. For a known conversation it IS
      the stored list (Python aliases it), so the model keeps only the id and
      reads the list from the store; a new conversation owns a private list
      that is not in the store yet. */
  datatype Pending = Continuing(id: string) | Starting(id: string, messages: History)

  /** The arguments `client.chat.completions.create` receives. */
  datatype Request = Request(model: string, messages: History)

  /** The state of the store between the two steps, with the call in flight. */
  datatype Step = Step(store: Store, pending: Pending)

  function SystemTurn(systemPrompt: string): Message {
    Message(System, systemPrompt)
  }

  /** `conversation_id and conversation_id in _conversations`. */
  predicate IsKnown(store: Store, cid: string) {
    cid != "" && cid in store.entries
  }

  /** Lines 45-49: a known id keeps its stored list, anything else gets the
      fresh id and a list holding only the system turn. */
  function Resolve(store: Store, cid: string, freshId: string, systemPrompt: string): (r: (string, History))
    ensures IsKnown(store, cid) ==> r.0 == cid && r.1 == store.entries[cid]
    ensures !IsKnown(store, cid) ==> r.0 == freshId && |r.1| == 1 && r.1[0].role == System
  {
    if IsKnown(store, cid) then (cid, store.entries[cid])
    else (freshId, [SystemTurn(systemPrompt)])
  }

  /** The list a call in flight sends to the backend. */
  function Sent(store: Store, p: Pending): History
    requires p.Continuing? ==> p.id in store.entries
  {
    match p
    case Continuing(id) => store.entries[id]
    case Starting(_, messages) => messages
  }

  /** Lines 45-51: resolve, then append the user turn. A known conversation is
      changed in the store at once; a new one is not stored. */
  function Begin(store: Store, cid: string, freshId: string, systemPrompt: string, prompt: string): (s: Step)
    requires store.Valid()
    ensures s.store.Valid() && s.store.keys == store.keys
    ensures s.pending.id == Resolve(store, cid, freshId, systemPrompt).0
    ensures s.pending.Continuing? <==> IsKnown(store, cid)
    ensures s.pending.Continuing? ==> s.pending.id in s.store.entries
    ensures Sent(s.store, s.pending) == Resolve(store, cid, freshId, systemPrompt).1 + [Message(User, prompt)]
    ensures IsKnown(store, cid) ==> s.store.entries == store.entries[cid := store.entries[cid] + [Message(User, prompt)]]
    ensures !IsKnown(store, cid) ==> s.store == store
  {
    if IsKnown(store, cid) then
      Step(store.Put(cid, store.entries[cid] + [Message(User, prompt)]), Continuing(cid))
    else
      Step(store, Starting(freshId, [SystemTurn(systemPrompt), Message(User, prompt)]))
  }

  /** Lines 59-61: on success append the assistant turn to the list in flight
      and store it under the call's id; a raised exception leaves the store alone. */
  function Finish(store: Store, p: Pending, outcome: Outcome): (r: Store)
    requires store.Valid()
    requires p.Continuing? ==> p.id in store.entries
    ensures r.Valid() && store.keys <= r.keys
    ensures outcome.Err? ==> r == store
    ensures outcome.Ok? ==> r.entries == store.entries[p.id := Sent(store, p) + [Message(Assistant, outcome.reply)]]
    ensures outcome.Ok? ==> r.keys == if p.id in store.entries then store.keys else store.keys + [p.id]
  {
    match outcome
    case Err(_) => store
    case Ok(reply) => store.Put(p.id, Sent(store, p) + [Message(Assistant, reply)])
  }

  /** Line 63, or the exception propagating out of line 53. */
  function Answer(id: string, outcome: Outcome): (r: CallResult)
    ensures r.Replied? <==> outcome.Ok?
    ensures outcome.Ok? ==> r.reply == outcome.reply && r.conversationId == id
    ensures outcome.Err? ==> r.error == outcome.error
  {
    match outcome
    case Ok(reply) => Replied(reply, id)
    case Err(error) => Raised(error)
  }

  /** The store after one whole `_call_codex` with no other call in between. */
  function CallStore(store: Store, cid: string, freshId: string, systemPrompt: string,
                     prompt: string, outcome: Outcome): (r: Store)
    requires store.Valid()
    ensures r.Valid() && store.keys <= r.keys
  {
    var s := Begin(store, cid, freshId, systemPrompt, prompt);
    Finish(s.store, s.pending, outcome)
  }

  // ---------------------------------------------------------------------------
  // Shape of stored histories

  /** A history as line 49 creates it and lines 51 and 60 grow it: the system
      turn first and nowhere else. */
  ghost predicate Seeded(h: History, systemPrompt: string) {
    && |h| > 0
    && h[0] == SystemTurn(systemPrompt)
    && forall i :: 0 < i < |h| ==> h[i].role != System
  }

  /** Every assistant turn answers the user turn right before it. */
  ghost predicate Answered(h: History) {
    forall i :: 0 < i < |h| && h[i].role == Assistant ==> h[i - 1].role == User
  }

  ghost predicate StoreSeeded(store: Store, systemPrompt: string) {
    forall c :: c in store.entries ==> Seeded(store.entries[c], systemPrompt)
  }

  ghost predicate StoreAnswered(store: Store) {
    forall c :: c in store.entries ==> Answered(store.entries[c])
  }

  /** A call in flight that `Finish` can complete without breaking `Seeded`. */
  ghost predicate PendingSeeded(store: Store, p: Pending, systemPrompt: string) {
    match p
    case Continuing(id) => id in store.entries
    case Starting(_, messages) => Seeded(messages, systemPrompt)
  }

  lemma AppendKeepsSeeded(h: History, systemPrompt: string, m: Message)
    requires Seeded(h, systemPrompt) && m.role != System
    ensures Seeded(h + [m], systemPrompt)
  {
  }

  // ---------------------------------------------------------------------------
  // Properties of one call

  /** Lines 45-49: a given, known id reuses its stored list; an absent or
      unknown id is replaced by the fresh one, with exactly one system turn. */
  lemma ResolveOrCreate(store: Store, cid: string, freshId: string, systemPrompt: string)
    ensures IsKnown(store, cid) ==> Resolve(store, cid, freshId, systemPrompt) == (cid, store.entries[cid])
    ensures !IsKnown(store, cid) ==> Resolve(store, cid, freshId, systemPrompt) == (freshId, [SystemTurn(systemPrompt)])
    ensures freshId != cid ==> (Resolve(store, cid, freshId, systemPrompt).0 == cid <==> IsKnown(store, cid))
  {
  }

  /** The request always carries the system turn first and the new user turn
      last, with the stored turns of a known conversation in between. */
  lemma RequestFramesPrompt(store: Store, cid: string, freshId: string, systemPrompt: string, prompt: string)
    requires store.Valid() && StoreSeeded(store, systemPrompt)
    ensures var s := Begin(store, cid, freshId, systemPrompt, prompt);
            var sent := Sent(s.store, s.pending);
            |sent| >= 2 && sent[0] == SystemTurn(systemPrompt) && sent[|sent| - 1] == Message(User, prompt)
  {
  }

  /** Lines 51-63 on success: the resolved history gains the user and the
      assistant turn and is stored under the returned id; every other
      conversation is untouched and a new id goes to the end of the order. */
  lemma SuccessfulCall(store: Store, cid: string, freshId: string, systemPrompt: string, prompt: string, reply: string)
    requires store.Valid() && freshId !in store.entries
    ensures var (id, h) := Resolve(store, cid, freshId, systemPrompt);
            var r := CallStore(store, cid, freshId, systemPrompt, prompt, Ok(reply));
            && r.entries == store.entries[id := h + [Message(User, prompt), Message(Assistant, reply)]]
            && r.keys == (if IsKnown(store, cid) then store.keys else store.keys + [id])
  {
    var (id, h) := Resolve(store, cid, freshId, systemPrompt);
    var s := Begin(store, cid, freshId, systemPrompt, prompt);
    assert h + [Message(User, prompt)] + [Message(Assistant, reply)]
        == h + [Message(User, prompt), Message(Assistant, reply)];
    if !IsKnown(store, cid) {
      assert s.store == store && id == freshId;
    }
  }

  /** Lines 46 and 51-53 on failure, known conversation: the stored list was
      changed in place before the call, so it keeps the user turn and gains
      no assistant turn. */
  lemma FailedContinuation(store: Store, cid: string, freshId: string, systemPrompt: string, prompt: string, error: string)
    requires store.Valid() && IsKnown(store, cid)
    ensures var r := CallStore(store, cid, freshId, systemPrompt, prompt, Err(error));
            && r.keys == store.keys
            && r.entries == store.entries[cid := store.entries[cid] + [Message(User, prompt)]]
  {
  }

  /** Lines 48-53 on failure, new conversation: line 61 is never reached, so
      the store is exactly as before and the fresh id is forgotten. */
  lemma FailedNewConversation(store: Store, cid: string, freshId: string, systemPrompt: string, prompt: string, error: string)
    requires store.Valid() && !IsKnown(store, cid)
    ensures CallStore(store, cid, freshId, systemPrompt, prompt, Err(error)) == store
  {
  }

  /** A call keeps every stored history seeded with its one system turn. */
  lemma CallKeepsSeeded(store: Store, cid: string, freshId: string, systemPrompt: string, prompt: string, outcome: Outcome)
    requires store.Valid() && StoreSeeded(store, systemPrompt)
    ensures StoreSeeded(CallStore(store, cid, freshId, systemPrompt, prompt, outcome), systemPrompt)
  {
  }

  /** Calls made one after another keep every assistant turn right after the
      user turn it answers, whether they succeed or fail. */
  lemma CallKeepsAnswered(store: Store, cid: string, freshId: string, systemPrompt: string, prompt: string, outcome: Outcome)
    requires store.Valid() && StoreAnswered(store)
    ensures StoreAnswered(CallStore(store, cid, freshId, systemPrompt, prompt, outcome))
  {
  }

  // ---------------------------------------------------------------------------
  // Properties of several calls

  /** Two successful calls, the second continuing the id the first returned,
      leave `[system, user:P1, assistant:R1, user:P2, assistant:R2]`. */
  lemma ConsecutiveCalls(store: Store, cid: string, freshId: string, laterFreshId: string, systemPrompt: string,
                         prompt1: string, reply1: string, prompt2: string, reply2: string)
    requires store.Valid() && !IsKnown(store, cid)
    requires freshId != "" && freshId !in store.entries
    ensures var first := CallStore(store, cid, freshId, systemPrompt, prompt1, Ok(reply1));
            var second := CallStore(first, freshId, laterFreshId, systemPrompt, prompt2, Ok(reply2));
            && IsKnown(first, freshId)
            && second.entries[freshId] == [SystemTurn(systemPrompt), Message(User, prompt1), Message(Assistant, reply1),
                                           Message(User, prompt2), Message(Assistant, reply2)]
  {
  }

  /** After a failed call on a known conversation, the next successful call
      sends two user turns in a row: the orphan and the new one. */
  lemma RetryAfterFailure(store: Store, cid: string, freshId: string, systemPrompt: string,
                          prompt1: string, error: string, prompt2: string, reply: string)
    requires store.Valid() && IsKnown(store, cid)
    ensures var failed := CallStore(store, cid, freshId, systemPrompt, prompt1, Err(error));
            var retried := CallStore(failed, cid, freshId, systemPrompt, prompt2, Ok(reply));
            retried.entries[cid] == store.entries[cid] + [Message(User, prompt1), Message(User, prompt2), Message(Assistant, reply)]
  {
  }

  /** Two calls on one known conversation whose backend calls overlap: both
      user turns are appended before either answer, so the stored history no
      longer pairs each answer with its question. */
  lemma OverlappingCalls(store: Store, cid: string, freshId1: string, freshId2: string, systemPrompt: string,
                         prompt1: string, reply1: string, prompt2: string, reply2: string)
    requires store.Valid() && IsKnown(store, cid)
    ensures var s1 := Begin(store, cid, freshId1, systemPrompt, prompt1);
            var s2 := Begin(s1.store, cid, freshId2, systemPrompt, prompt2);
            var done1 := Finish(s2.store, s1.pending, Ok(reply1));
            cid in done1.entries &&
            var done2 := Finish(done1, s2.pending, Ok(reply2));
            && done2.entries[cid] == store.entries[cid] + [Message(User, prompt1), Message(User, prompt2),
                                                           Message(Assistant, reply1), Message(Assistant, reply2)]
            && !Answered(done2.entries[cid])
  {
    var h := store.entries[cid];
    var s1 := Begin(store, cid, freshId1, systemPrompt, prompt1);
    assert s1.pending == Continuing(cid);
    var s2 := Begin(s1.store, cid, freshId2, systemPrompt, prompt2);
    assert s2.pending == Continuing(cid);
    assert s2.store.entries[cid] == h + [Message(User, prompt1)] + [Message(User, prompt2)];
    var done1 := Finish(s2.store, s1.pending, Ok(reply1));
    var done2 := Finish(done1, s2.pending, Ok(reply2));
    var expected := h + [Message(User, prompt1), Message(User, prompt2), Message(Assistant, reply1), Message(Assistant, reply2)];
    assert done2.entries[cid] == h + [Message(User, prompt1)] + [Message(User, prompt2)]
                                   + [Message(Assistant, reply1)] + [Message(Assistant, reply2)];
    assert done2.entries[cid] == expected;
    var last := |expected| - 1;
    assert expected[last].role == Assistant && expected[last - 1].role == Assistant;
  }

  // ---------------------------------------------------------------------------
  // Line 178: the most recent user turn

  /** The preview width of both listings: the user turn of `codex_conversations`
      (line 178) and the prompt of `codex_list_tasks` (line 164), which
      `Server.CodexServer.ListTasks` takes from here. */
  const LIST_PREVIEW: nat := 80

  /** The position of the most recent user turn, scanning from the end as
      `reversed(msgs)` does. */
  function LastUserIndex(h: History): (r: Option<nat>)
    ensures r.Some? ==> r.value < |h| && h[r.value].role == User
    ensures r.Some? ==> forall j :: r.value < j < |h| ==> h[j].role != User
    ensures r.None? ==> forall j :: 0 <= j < |h| ==> h[j].role != User
    decreases |h|
  {
    if |h| == 0 then None
    else if h[|h| - 1].role == User then Some(|h| - 1)
    else LastUserIndex(h[..|h| - 1])
  }

  /** `next((m["content"][:80] for m in reversed(msgs) if m["role"] == "user"), "")`:
      the first 80 characters of the most recent user turn, or `""` without one. */
  function LastUserPreview(h: History): (s: string)
    ensures |s| <= LIST_PREVIEW
    ensures (forall j :: 0 <= j < |h| ==> h[j].role != User) ==> s == ""
    ensures forall i :: 0 <= i < |h| && h[i].role == User && (forall j :: i < j < |h| ==> h[j].role != User)
                        ==> s == Prefix(h[i].content, LIST_PREVIEW)
  {
    match LastUserIndex(h)
    case None => ""
    case Some(i) => Prefix(h[i].content, LIST_PREVIEW)
  }
}
