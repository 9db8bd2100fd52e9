/**
 * The client-side AI service: the session it opens (a preamble turn with the
 * map context, an acknowledgement, then the prior turns), the tools it
 * declares when map actions are given, the single round of calls it runs
 * through those actions, and how it rewrites errors. The model's replies,
 * the store's ids and the geocoder are inputs.
 */
module AiService {
  import opened Wrappers
  import opened Text
  import opened Types
  import opened StoreApi
  import opened ToastStore
  import opened ToolCatalog
  import opened ChatActions
  import opened ToolExecutor
  import opened ChatStore
  import opened GenAi
  import opened MapContext
  import opened ChatRoute

  const ApiKeyPhrase: string := "API Key"
  const MissingKeyMessage: string :=
    ApiKeyPhrase + " de Google AI no configurada. Por favor, agrega NEXT_PUBLIC_GOOGLE_AI_API_KEY en tu archivo .env.local"
  const ConfigError: string := "Error de configuración: API Key no válida o no configurada"
  const CommunicationPrefix: string := "Error al comunicarse con la IA: "
  const UnknownError: string := "Error desconocido al comunicarse con la IA"
  const ModelAck: string :=
    "Entendido. Estoy listo para ayudarte con el mapa. Puedo agregar marcadores, buscar lugares, listar tus ubicaciones y más. ¿Qué necesitas?"

  const PreambleTail: string :=
    "\n" +
    "\n" +
    "Tu función es:\n" +
    "1. Ayudar al usuario a gestionar marcadores en el mapa usando las herramientas disponibles\n" +
    "2. Proporcionar información sobre ubicaciones\n" +
    "3. Sugerir lugares según las necesidades del usuario\n" +
    "4. Responder preguntas sobre los marcadores existentes\n" +
    "\n" +
    "IMPORTANTE: Cuando el usuario pida agregar, buscar o gestionar marcadores, DEBES usar las herramientas disponibles (add_marker, search_location, list_markers, etc.).\n" +
    "No solo describas lo que harías, EJECUTA las herramientas.\n" +
    "\n" +
    "Responde de forma concisa, amigable y útil."

  // ---------------------------------------------------------------------------
  // Declarations and history

  /** The client's declaration of a tool: as on the server, but item types are not declared. */
  function ClientDeclaration(t: ToolDefinition): (d: FunctionDeclaration)
    ensures |d.properties| == |t.properties|
  {
    FunctionDeclaration(t.name, t.description, ObjectType,
                        seq(|t.properties|, j requires 0 <= j < |t.properties| =>
                          DeclProperty(t.properties[j].key, ToUpperAscii(t.properties[j].typ),
                                       t.properties[j].description, None)),
                        t.required)
  }

  function ClientDeclarations(ts: seq<ToolDefinition>): (ds: seq<FunctionDeclaration>)
    ensures |ds| == |ts|
  {
    seq(|ts|, i requires 0 <= i < |ts| => ClientDeclaration(ts[i]))
  }

  /** The two declarations differ only in the item types of array parameters. */
  lemma ClientDeclarationsDropItems(ts: seq<ToolDefinition>)
    ensures forall i :: 0 <= i < |ts| ==>
      ClientDeclarations(ts)[i].(properties := []) == ConvertTools(ts)[i].(properties := [])
    ensures forall i, j :: 0 <= i < |ts| && 0 <= j < |ts[i].properties| ==>
      ClientDeclarations(ts)[i].properties[j] == ConvertTools(ts)[i].properties[j].(items := None)
  {
  }

  /** The preamble turn: the shared opening, the map context and the client's instructions. */
  function Preamble(mapContext: string): (s: string)
    ensures PromptOpening + mapContext <= s
  {
    PromptOpening + mapContext + PreambleTail
  }

  /** A prior turn's role as the client maps it: only "model" speaks as the model. */
  function ClientRole(role: string): (r: string)
    ensures r == "model" <==> role == "model"
    ensures r == "user" <==> role != "model"
  {
    if role == "model" then "model" else "user"
  }

  function PriorTurns(h: seq<HistoryMessage>): (cs: seq<Content>)
    ensures |cs| == |h|
    ensures forall i :: 0 <= i < |h| ==> cs[i].text == h[i].parts && cs[i].role == ClientRole(h[i].role)
  {
    seq(|h|, i requires 0 <= i < |h| => Content(ClientRole(h[i].role), h[i].parts))
  }

  /**
   * The history the chat store produces keeps its roles on the client,
   * unlike on the server route, where every turn arrives as the user's.
   */
  lemma StoreHistoryKeepsRoles(ms: seq<ChatMessage>)
    ensures forall i :: 0 <= i < |HistoryOf(ms)| ==> PriorTurns(HistoryOf(ms))[i].role == HistoryOf(ms)[i].role
    ensures forall i :: 0 <= i < |HistoryOf(ms)| && HistoryOf(ms)[i].role == "model" ==>
      PriorTurns(HistoryOf(ms))[i].role != RouteHistory(HistoryOf(ms))[i].role
  {
    HistoryHasNoAssistantRole(ms);
  }

  /** The session the client opens: the tools only when map actions are given. */
  datatype ClientSetup = ClientSetup(tools: Option<seq<FunctionDeclaration>>, history: seq<Content>)

  function SetupOf(markers: seq<Location>, center: Option<Coordinates>, h: seq<HistoryMessage>, withTools: bool,
                   fmt: NumberFormat): (s: ClientSetup)
    ensures s.tools.Some? <==> withTools
    ensures |s.history| == |h| + 2 && s.history[2..] == PriorTurns(h)
  {
    ClientSetup(if withTools then Some(ClientDeclarations(AvailableTools)) else None,
                [Content("user", Preamble(ContextText(markers, center, fmt))), Content("model", ModelAck)]
                  + PriorTurns(h))
  }

  // ---------------------------------------------------------------------------
  // Errors

  /** What the caller sees of a caught value. */
  function RewriteError(e: ErrorValue): (m: string)
    ensures e.ErrorObject? && (Contains(e.message, "API") || Contains(e.message, "key")) ==> m == ConfigError
    ensures e.ErrorObject? && !Contains(e.message, "API") && !Contains(e.message, "key") ==>
      m == CommunicationPrefix + e.message
    ensures e.OtherThrown? ==> m == UnknownError
  {
    match e
    case ErrorObject(message) =>
      if Contains(message, "API") || Contains(message, "key") then ConfigError
      else CommunicationPrefix + message
    case OtherThrown => UnknownError
  }

  lemma ContainsSuffix(s: string, sub: string, k: nat)
    requires k <= |s| && sub <= s[k..]
    ensures Contains(s, sub)
    decreases k
  {
    if k > 0 {
      assert s[1..][k - 1..] == s[k..];
      ContainsSuffix(s[1..], sub, k - 1);
    }
  }

  /**
   * The missing-key message never reaches the caller: it mentions "API", so
   * it is replaced by the generic configuration error.
   */
  lemma MissingKeyBecomesConfigError()
    ensures RewriteError(ErrorObject(MissingKeyMessage)) == ConfigError
  {
    assert MissingKeyMessage[..3] == ApiKeyPhrase[..3] == "API";
  }

  /** "key" is matched anywhere, so an unrelated message that contains it is reported as a configuration error. */
  lemma AnyKeySubstringIsConfigError()
    ensures RewriteError(ErrorObject("monkey business")) == ConfigError
  {
    ContainsSuffix("monkey business", "key", 3);
  }

  /** Any other error keeps its message behind a fixed prefix. */
  lemma OtherErrorsKeepMessage()
    ensures RewriteError(ErrorObject("timeout")) == CommunicationPrefix + "timeout"
  {
    NotContainsWithoutFirst("timeout", "API");
    NotContainsWithoutFirst("timeout", "key");
  }

  /** A string none of whose characters starts `sub` does not contain it. */
  lemma {:induction false} NotContainsWithoutFirst(s: string, sub: string)
    requires sub != []
    requires forall i :: 0 <= i < |s| ==> s[i] != sub[0]
    ensures !Contains(s, sub)
    decreases |s|
  {
    if s != [] {
      assert s[0] != sub[0];
      assert !(sub <= s);
      forall i | 0 <= i < |s[1..]|
        ensures s[1..][i] != sub[0]
      {
        assert s[1..][i] == s[i + 1];
      }
      NotContainsWithoutFirst(s[1..], sub);
    }
  }

  // ---------------------------------------------------------------------------
  // The round of calls

  /** Where the round stops: the last text, the calls run, what was sent, and any thrown value. */
  datatype ClientEnd = ClientEnd(text: string, used: seq<ToolUse>, sent: seq<Outgoing>, error: Option<ErrorValue>)

  /**
   * The calls of the first reply, from the `j`-th on: each is run through the
   * actions and its result sent back on its own; a follow-up reply only
   * replaces the text, its own calls are not run.
   */
  function ClientLoop(calls: seq<FunctionCall>, j: nat, markers: seq<Location>, replies: nat -> SdkReply,
                      storeIds: nat -> MarkerId, geocodes: nat -> Option<seq<Place>>,
                      text: string, used: seq<ToolUse>, sent: seq<Outgoing>): (e: ClientEnd)
    requires j <= |calls|
    ensures |used| < |e.used| <= |used| + |calls| - j || (j == |calls| && e.used == used)
    ensures e.used[..|used|] == used
    ensures |sent| <= |e.sent|
    ensures e.error.None? ==> |e.used| == |used| + |calls| - j && |e.sent| == |sent| + |calls| - j
    decreases |calls| - j
  {
    if j == |calls| then ClientEnd(text, used, sent, None)
    else
      var c := calls[j];
      var r := ClientResult(c.name, c.args, markers, storeIds(|used|), geocodes(|used|));
      var used' := used + [ToolUse(c.name, c.args, r)];
      var sent' := sent + [Responses([FunctionResponse(c.name, r)])];
      assert used'[..|used|] == used;
      match replies(|sent|)
      case Threw(err) => ClientEnd(text, used', sent', Some(err))
      case Replied(_, next) =>
        var e := ClientLoop(calls, j + 1, markers, replies, storeIds, geocodes, next, used', sent');
        assert e.used[..|used|] == e.used[..|used'|][..|used|];
        e
  }

  /** The store calls and toasts of the calls run, in order. */
  function AllClientCalls(used: seq<ToolUse>, markers: seq<Location>): seq<StoreCall>
  {
    if used == [] then []
    else AllClientCalls(used[..|used| - 1], markers)
         + ClientCalls(used[|used| - 1].name, used[|used| - 1].parameters, markers)
  }

  function AllClientToasts(used: seq<ToolUse>, markers: seq<Location>): seq<ToastInput>
  {
    if used == [] then []
    else AllClientToasts(used[..|used| - 1], markers)
         + ClientToasts(used[|used| - 1].name, used[|used| - 1].parameters, markers)
  }

  /** The entries of `all` after `used0` record `calls` from the `j`-th on, in order, with their arguments. */
  predicate RecordsCalls(all: seq<ToolUse>, used0: seq<ToolUse>, calls: seq<FunctionCall>, j: nat)
  {
    forall i :: |used0| <= i < |all| ==>
      0 <= j + i - |used0| < |calls| && all[i].name == calls[j + i - |used0|].name
      && all[i].parameters == calls[j + i - |used0|].args
  }

  /** The calls run are the first reply's, in order, with their arguments. */
  lemma {:induction false} ClientLoopRunsFirstReply(calls: seq<FunctionCall>, j: nat, markers: seq<Location>,
                                                   replies: nat -> SdkReply, storeIds: nat -> MarkerId,
                                                   geocodes: nat -> Option<seq<Place>>,
                                                   text: string, used: seq<ToolUse>, sent: seq<Outgoing>)
    requires j <= |calls|
    ensures RecordsCalls(ClientLoop(calls, j, markers, replies, storeIds, geocodes, text, used, sent).used, used, calls, j)
    decreases |calls| - j
  {
    if j < |calls| {
      var c := calls[j];
      var r := ClientResult(c.name, c.args, markers, storeIds(|used|), geocodes(|used|));
      var used' := used + [ToolUse(c.name, c.args, r)];
      var sent' := sent + [Responses([FunctionResponse(c.name, r)])];
      if replies(|sent|).Replied? {
        var e := ClientLoop(calls, j + 1, markers, replies, storeIds, geocodes, replies(|sent|).text, used', sent');
        ClientLoopRunsFirstReply(calls, j + 1, markers, replies, storeIds, geocodes, replies(|sent|).text, used', sent');
        assert e.used[|used|] == e.used[..|used'|][|used|] == used'[|used|];
        assert RecordsCalls(e.used, used, calls, j);
      }
    }
  }

  /** Unless something was thrown, the text is the reply to the last result sent. */
  lemma {:induction false} ClientLoopEndsOnLastReply(calls: seq<FunctionCall>, j: nat, markers: seq<Location>,
                                                    replies: nat -> SdkReply, storeIds: nat -> MarkerId,
                                                    geocodes: nat -> Option<seq<Place>>,
                                                    text: string, used: seq<ToolUse>, sent: seq<Outgoing>)
    requires j <= |calls| && |sent| > 0
    requires replies(|sent| - 1).Replied? && replies(|sent| - 1).text == text
    ensures var e := ClientLoop(calls, j, markers, replies, storeIds, geocodes, text, used, sent);
      e.error.None? ==> |e.sent| > 0 && replies(|e.sent| - 1).Replied? && replies(|e.sent| - 1).text == e.text
    decreases |calls| - j
  {
    if j < |calls| {
      var c := calls[j];
      var r := ClientResult(c.name, c.args, markers, storeIds(|used|), geocodes(|used|));
      var used' := used + [ToolUse(c.name, c.args, r)];
      var sent' := sent + [Responses([FunctionResponse(c.name, r)])];
      if replies(|sent|).Replied? {
        ClientLoopEndsOnLastReply(calls, j + 1, markers, replies, storeIds, geocodes, replies(|sent|).text, used', sent');
      }
    }
  }

  // ---------------------------------------------------------------------------
  // sendMessage

  datatype SendResult = Sent(text: string, toolsUsed: Option<seq<ToolUse>>) | Failed(message: string)

  /** The outcome, every message sent, and the calls run (also when the round failed part-way). */
  datatype ClientExchange = ClientExchange(result: SendResult, sent: seq<Outgoing>, ran: seq<ToolUse>)

  /** How a round of calls ends for the caller: the rewritten error, or the text and the calls run. */
  function RoundOutcome(e: ClientEnd): (ex: ClientExchange)
    ensures ex.sent == e.sent && ex.ran == e.used
    ensures ex.result.Failed? <==> e.error.Some?
  {
    if e.error.Some? then ClientExchange(Failed(RewriteError(e.error.value)), e.sent, e.used)
    else ClientExchange(Sent(e.text, if |e.used| > 0 then Some(e.used) else None), e.sent, e.used)
  }

  /** `sendMessage`; `actions` are the captured markers of the map actions, when they are given. */
  function SendSpec(apiKey: Option<string>, userMessage: string, actions: Option<seq<Location>>,
                    replies: nat -> SdkReply, storeIds: nat -> MarkerId, geocodes: nat -> Option<seq<Place>>)
    : (ex: ClientExchange)
    ensures ex.sent == [] <==> apiKey.None? || apiKey.value == ""
    ensures actions.None? ==> ex.ran == []
    ensures ex.result.Sent? && ex.result.toolsUsed.Some? ==> ex.result.toolsUsed.value == ex.ran != []
  {
    if apiKey.None? || apiKey.value == "" then ClientExchange(Failed(RewriteError(ErrorObject(MissingKeyMessage))), [], [])
    else
      var first := [UserText(userMessage)];
      match replies(0)
      case Threw(err) => ClientExchange(Failed(RewriteError(err)), first, [])
      case Replied(calls, text) =>
        if actions.Some? && |calls| > 0 then
          RoundOutcome(ClientLoop(calls, 0, actions.value, replies, storeIds, geocodes, text, [], first))
        else ClientExchange(Sent(text, None), first, [])
  }

  /** Without a key nothing is sent and the caller sees the configuration error. */
  lemma NoKeyFailsAsConfigError(apiKey: Option<string>, userMessage: string, actions: Option<seq<Location>>,
                                replies: nat -> SdkReply, storeIds: nat -> MarkerId, geocodes: nat -> Option<seq<Place>>)
    requires apiKey.None? || apiKey.value == ""
    ensures SendSpec(apiKey, userMessage, actions, replies, storeIds, geocodes) == ClientExchange(Failed(ConfigError), [], [])
  {
    MissingKeyBecomesConfigError();
  }

  /**
   * With a key and a reply, the text is the last reply's; with actions, one
   * message goes out per call of the first reply, and those calls are the ones run.
   */
  lemma SendAnswersWithLastReply(apiKey: Option<string>, userMessage: string, actions: Option<seq<Location>>,
                                 replies: nat -> SdkReply, storeIds: nat -> MarkerId, geocodes: nat -> Option<seq<Place>>)
    ensures var ex := SendSpec(apiKey, userMessage, actions, replies, storeIds, geocodes);
      ex.result.Sent? ==>
        |ex.sent| > 0 && replies(|ex.sent| - 1).Replied? && replies(|ex.sent| - 1).text == ex.result.text
        && |ex.sent| == 1 + (if actions.Some? then |replies(0).calls| else 0)
        && |ex.ran| == |ex.sent| - 1
        && RecordsCalls(ex.ran, [], replies(0).calls, 0)
  {
    if apiKey.Some? && apiKey.value != "" && replies(0).Replied? && actions.Some? && |replies(0).calls| > 0 {
      var first := [UserText(userMessage)];
      ClientLoopEndsOnLastReply(replies(0).calls, 0, actions.value, replies, storeIds, geocodes, replies(0).text, [], first);
      ClientLoopRunsFirstReply(replies(0).calls, 0, actions.value, replies, storeIds, geocodes, replies(0).text, [], first);
    }
  }

  /** Each step of the round's log: the effects of the calls run so far, then this call's. */
  lemma EffectsStep(calls0: seq<StoreCall>, toasts0: seq<ToastInput>, used: seq<ToolUse>, u: ToolUse,
                    markers: seq<Location>)
    ensures calls0 + AllClientCalls(used, markers) + ClientCalls(u.name, u.parameters, markers)
         == calls0 + AllClientCalls(used + [u], markers)
    ensures toasts0 + AllClientToasts(used, markers) + ClientToasts(u.name, u.parameters, markers)
         == toasts0 + AllClientToasts(used + [u], markers)
  {
    assert (used + [u])[..|used|] == used;
  }

  /** The `for` loop over the first reply's calls. */
  method RunClientCalls(calls: seq<FunctionCall>, context: ChatActionsContext, replies: nat -> SdkReply,
                        storeIds: nat -> MarkerId, geocodes: nat -> Option<seq<Place>>,
                        text0: string, sent0: seq<Outgoing>)
    returns (e: ClientEnd)
    modifies context.store
    ensures e == ClientLoop(calls, 0, context.markers, replies, storeIds, geocodes, text0, [], sent0)
    ensures context.store.calls == old(context.store.calls) + AllClientCalls(e.used, context.markers)
    ensures context.store.toasts == old(context.store.toasts) + AllClientToasts(e.used, context.markers)
  {
    var text, used, sent := text0, [], sent0;
    for j := 0 to |calls|
      invariant |used| == j
      invariant ClientLoop(calls, j, context.markers, replies, storeIds, geocodes, text, used, sent)
             == ClientLoop(calls, 0, context.markers, replies, storeIds, geocodes, text0, [], sent0)
      invariant context.store.calls == old(context.store.calls) + AllClientCalls(used, context.markers)
      invariant context.store.toasts == old(context.store.toasts) + AllClientToasts(used, context.markers)
    {
      var c := calls[j];
      EffectsStep(old(context.store.calls), old(context.store.toasts), used, ToolUse(c.name, c.args,
                  ClientResult(c.name, c.args, context.markers, storeIds(|used|), geocodes(|used|))), context.markers);
      var r := ExecuteTool(c.name, c.args, context, storeIds(|used|), geocodes(|used|));
      used := used + [ToolUse(c.name, c.args, r)];
      var reply := replies(|sent|);
      sent := sent + [Responses([FunctionResponse(c.name, r)])];
      if reply.Threw? {
        return ClientEnd(text, used, sent, Some(reply.error));
      }
      text := reply.text;
    }
    e := ClientEnd(text, used, sent, None);
  }

  /** Everything after the session is opened: the message, the round of calls and the error rewrite. */
  method Converse(apiKey: Option<string>, userMessage: string, context: ChatActionsContext?,
                  replies: nat -> SdkReply, storeIds: nat -> MarkerId, geocodes: nat -> Option<seq<Place>>)
    returns (ex: ClientExchange)
    modifies if context != null then {context.store} else {}
    ensures ex == SendSpec(apiKey, userMessage, if context != null then Some(context.markers) else None,
                           replies, storeIds, geocodes)
    ensures context != null ==>
      context.store.calls == old(context.store.calls) + AllClientCalls(ex.ran, context.markers)
      && context.store.toasts == old(context.store.toasts) + AllClientToasts(ex.ran, context.markers)
  {
    if apiKey.None? || apiKey.value == "" {
      return ClientExchange(Failed(RewriteError(ErrorObject(MissingKeyMessage))), [], []);
    }
    var first := [UserText(userMessage)];
    var reply := replies(0);
    if reply.Threw? {
      return ClientExchange(Failed(RewriteError(reply.error)), first, []);
    }
    if context != null && |reply.calls| > 0 {
      var e := RunClientCalls(reply.calls, context, replies, storeIds, geocodes, reply.text, first);
      ex := RoundOutcome(e);
    } else {
      ex := ClientExchange(Sent(reply.text, None), first, []);
    }
  }

  /** `sendMessage`: the session it opens, and the exchange over it. */
  method SendMessage(apiKey: Option<string>, userMessage: string, markers: seq<Location>, center: Option<Coordinates>,
                     conversationHistory: seq<HistoryMessage>, context: ChatActionsContext?,
                     replies: nat -> SdkReply, storeIds: nat -> MarkerId, geocodes: nat -> Option<seq<Place>>,
                     fmt: NumberFormat)
    returns (ex: ClientExchange, setup: Option<ClientSetup>)
    modifies if context != null then {context.store} else {}
    ensures ex == SendSpec(apiKey, userMessage, if context != null then Some(context.markers) else None,
                           replies, storeIds, geocodes)
    ensures setup.Some? <==> ex.sent != []
    ensures setup.Some? ==> setup.value == SetupOf(markers, center, conversationHistory, context != null, fmt)
    ensures context != null ==>
      context.store.calls == old(context.store.calls) + AllClientCalls(ex.ran, context.markers)
      && context.store.toasts == old(context.store.toasts) + AllClientToasts(ex.ran, context.markers)
  {
    setup := None;
    if apiKey.Some? && apiKey.value != "" {
      setup := Some(SetupOf(markers, center, conversationHistory, context != null, fmt));
    }
    ex := Converse(apiKey, userMessage, context, replies, storeIds, geocodes);
  }
}
