/**
 * The chat message log: messages in arrival order, a loading flag and the
 * current error, plus the history view handed to the model.
 */
module ChatStore {
  import opened Wrappers
  import opened ToolCatalog

  datatype Role = User | Assistant | System | Action

  /** What an action message records about the tool call it reports. */
  datatype ActionMetadata = ActionMetadata(toolName: string, parameters: Args, result: ToolResult)

  datatype ChatMessage = ChatMessage(id: string, role: Role, content: string, timestamp: int,
                                     metadata: Option<ActionMetadata>)

  /** One prior turn as the model's chat history takes it. */
  datatype HistoryMessage = HistoryMessage(role: string, parts: string)

  const PersistName: string := "chat-store"
  const PersistVersion: int := 1

  /** The history entry of one message: none for a system message; assistant and action messages speak as the model. */
  function EntryOf(m: ChatMessage): (h: seq<HistoryMessage>)
    ensures m.role == System <==> h == []
    ensures h != [] ==> |h| == 1 && h[0].parts == m.content
    ensures h != [] ==> (h[0].role == "model" <==> m.role in {Assistant, Action})
    ensures h != [] ==> (h[0].role == "user" <==> m.role == User)
  {
    if m.role == System then []
    else [HistoryMessage(if m.role == Assistant || m.role == Action then "model" else "user", m.content)]
  }

  /** `getHistory`: system messages dropped, the rest in order with their roles mapped. */
  function HistoryOf(ms: seq<ChatMessage>): (h: seq<HistoryMessage>)
    ensures |h| <= |ms|
    ensures forall k :: 0 <= k < |h| ==> h[k].role == "model" || h[k].role == "user"
  {
    if ms == [] then [] else HistoryOf(ms[..|ms| - 1]) + EntryOf(ms[|ms| - 1])
  }

  /** How many messages are not system messages. */
  function CountNonSystem(ms: seq<ChatMessage>): (n: nat)
    ensures n <= |ms|
  {
    if ms == [] then 0 else CountNonSystem(ms[..|ms| - 1]) + (if ms[|ms| - 1].role == System then 0 else 1)
  }

  /** The history of a concatenation is the concatenation of the histories: order is kept. */
  lemma {:induction false} HistoryOfConcat(a: seq<ChatMessage>, b: seq<ChatMessage>)
    ensures HistoryOf(a + b) == HistoryOf(a) + HistoryOf(b)
    decreases |b|
  {
    if b == [] {
      assert a + b == a;
    } else {
      var b' := b[..|b| - 1];
      assert (a + b)[..|a + b| - 1] == a + b';
      assert (a + b)[|a + b| - 1] == b[|b| - 1];
      HistoryOfConcat(a, b');
    }
  }

  /** Exactly one entry per non-system message. */
  lemma {:induction false} HistoryLength(ms: seq<ChatMessage>)
    ensures |HistoryOf(ms)| == CountNonSystem(ms)
  {
    if ms != [] {
      HistoryLength(ms[..|ms| - 1]);
    }
  }

  /** No history entry ever carries the role "assistant". */
  lemma HistoryHasNoAssistantRole(ms: seq<ChatMessage>)
    ensures forall k :: 0 <= k < |HistoryOf(ms)| ==> HistoryOf(ms)[k].role != "assistant"
  {
  }

  class ChatState {
    var messages: seq<ChatMessage>
    var isLoading: bool
    var error: Option<string>

    constructor()
      ensures messages == [] && !isLoading && error.None?
    {
      messages := [];
      isLoading := false;
      error := None;
    }

    /** `addMessage`: appends one message with a fresh id and the current time, and clears the error. */
    method AddMessage(role: Role, content: string, metadata: Option<ActionMetadata>, freshId: string, now: int)
      returns (id: string)
      modifies this
      ensures id == freshId
      ensures messages == old(messages) + [ChatMessage(freshId, role, content, now, metadata)]
      ensures error.None? && isLoading == old(isLoading)
    {
      id := freshId;
      messages := messages + [ChatMessage(id, role, content, now, metadata)];
      error := None;
    }

    method SetLoading(loading: bool)
      modifies this
      ensures isLoading == loading && messages == old(messages) && error == old(error)
    {
      isLoading := loading;
    }

    method SetError(e: Option<string>)
      modifies this
      ensures error == e && messages == old(messages) && isLoading == old(isLoading)
    {
      error := e;
    }

    method ClearChat()
      modifies this
      ensures messages == [] && error.None? && !isLoading
    {
      messages := [];
      error := None;
      isLoading := false;
    }

    /** `getHistory`: reads the log and changes nothing. */
    function GetHistory(): (h: seq<HistoryMessage>)
      reads this
      ensures |h| <= |messages|
      ensures forall k :: 0 <= k < |h| ==> h[k].role in {"model", "user"}
    {
      HistoryOf(messages)
    }

    /** The persisted slice: the messages only; the history can be rebuilt from it. */
    function Persisted(): (p: seq<ChatMessage>)
      reads this
      ensures |p| == |messages| && forall k :: 0 <= k < |p| ==> p[k] == messages[k]
      ensures HistoryOf(p) == GetHistory()
    {
      messages
    }

    /**
     * Loading a persisted slice on start: the messages come back, while the
     * loading flag and the error, which are not persisted, take their
     * initial values. The history is the one that was saved.
     */
    method Rehydrate(p: seq<ChatMessage>)
      modifies this
      ensures messages == p && !isLoading && error.None?
      ensures GetHistory() == HistoryOf(p)
    {
      messages := p;
      isLoading := false;
      error := None;
    }
  }

  /** Adding a message extends the history by that message's entry and nothing else. */
  lemma AddMessageHistory(ms: seq<ChatMessage>, m: ChatMessage)
    ensures HistoryOf(ms + [m]) == HistoryOf(ms) + EntryOf(m)
  {
    assert (ms + [m])[..|ms + [m]| - 1] == ms;
  }
}
