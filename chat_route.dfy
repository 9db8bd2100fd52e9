/**
 * The server route for chat messages: input check, the map summary and
 * system instruction, the tool declarations, the history mapping, and the
 * bounded loop that runs the model's tool calls on the server and sends the
 * results back. The model's replies, the id generator and the geocoder are
 * inputs.
 */
module ChatRoute {
  import opened Wrappers
  import opened Text
  import opened Types
  import opened ToolCatalog
  import opened ServerExecutor
  import opened ChatStore
  import opened GenAi
  import opened MapContext

  // ---------------------------------------------------------------------------
  // Tool declarations

  function ConvertProperty(p: Property): (d: DeclProperty)
    ensures d.key == p.key && d.description == p.description
    ensures d.typ == ToUpperAscii(p.typ)
    ensures d.items.Some? <==> p.items.Some?
    ensures d.items.Some? ==> d.items.value == ToUpperAscii(p.items.value)
  {
    DeclProperty(p.key, ToUpperAscii(p.typ), p.description,
                 if p.items.Some? then Some(ToUpperAscii(p.items.value)) else None)
  }

  function ConvertTool(t: ToolDefinition): (d: FunctionDeclaration)
    ensures d.name == t.name && d.description == t.description && d.required == t.required
    ensures d.paramsType == ObjectType
    ensures |d.properties| == |t.properties|
    ensures forall j :: 0 <= j < |t.properties| ==> d.properties[j] == ConvertProperty(t.properties[j])
  {
    FunctionDeclaration(t.name, t.description, ObjectType,
                        seq(|t.properties|, j requires 0 <= j < |t.properties| => ConvertProperty(t.properties[j])),
                        t.required)
  }

  /** `convertToolsToFunctionDeclarations`: one declaration per tool, in order. */
  function ConvertTools(ts: seq<ToolDefinition>): (ds: seq<FunctionDeclaration>)
    ensures |ds| == |ts|
    ensures forall i :: 0 <= i < |ts| ==> ds[i] == ConvertTool(ts[i])
  {
    seq(|ts|, i requires 0 <= i < |ts| => ConvertTool(ts[i]))
  }

  function DeclKeys(ps: seq<DeclProperty>): (keys: seq<string>)
    ensures |keys| == |ps|
  {
    seq(|ps|, j requires 0 <= j < |ps| => ps[j].key)
  }

  /**
   * A declaration keeps the tool's keys and required names, so a well-formed
   * tool gives a declaration whose required names are declared; every
   * declared type is upper case.
   */
  lemma ConvertKeepsShape(t: ToolDefinition)
    requires WellFormedTool(t)
    ensures DeclKeys(ConvertTool(t).properties) == PropertyKeys(t.properties)
    ensures forall r :: r in ConvertTool(t).required ==> r in DeclKeys(ConvertTool(t).properties)
    ensures forall j, k :: 0 <= j < |t.properties| && 0 <= k < |ConvertTool(t).properties[j].typ| ==>
      !('a' <= ConvertTool(t).properties[j].typ[k] <= 'z')
  {
    assert DeclKeys(ConvertTool(t).properties) == PropertyKeys(t.properties);
  }

  // ---------------------------------------------------------------------------
  // Request and response

  /** The `userMessage` field of the request body. */
  datatype MessageField = MissingField | StringField(s: string) | OtherField

  datatype RequestBody = RequestBody(
    userMessage: MessageField, markers: seq<Location>, center: Option<Coordinates>,
    conversationHistory: seq<HistoryMessage>)

  datatype Response =
    | Ok(text: string, toolsUsed: Option<seq<ToolUse>>)
    | BadRequest(error: string)
    | ServerError(error: string)

  function Status(r: Response): (code: int)
    ensures r.Ok? <==> code == 200
    ensures r.BadRequest? <==> code == 400
    ensures r.ServerError? <==> code == 500
  {
    match r
    case Ok(_, _) => 200
    case BadRequest(_) => 400
    case ServerError(_) => 500
  }

  const MissingMessageError: string := "userMessage es requerido"
  const MissingKeyError: string := "Configuración del servidor incorrecta. Falta GOOGLE_AI_API_KEY"
  const FallbackError: string := "Error al procesar el mensaje"
  const MaxDepth: nat := 5

  /** A truthy string: a missing field, any other type and the empty string are all refused. */
  predicate ValidMessage(f: MessageField): (ok: bool)
    ensures f.MissingField? || f.OtherField? ==> !ok
    ensures f.StringField? ==> (ok <==> |f.s| > 0)
  {
    f.StringField? && f.s != ""
  }

  /** The error text of a caught value. */
  function ErrorMessage(e: ErrorValue): (m: string)
    ensures e.ErrorObject? ==> m == e.message
    ensures e.OtherThrown? ==> m == FallbackError
  {
    if e.ErrorObject? then e.message else FallbackError
  }

  const PromptTail: string :=
    "\n\n" +
    "Tu función es:\n" +
    "1. Ayudar al usuario a gestionar marcadores en el mapa usando las herramientas disponibles\n" +
    "2. Proporcionar información sobre ubicaciones\n" +
    "3. Sugerir lugares según las necesidades del usuario\n" +
    "4. Responder preguntas sobre los marcadores existentes\n\n" +
    "HERRAMIENTAS DISPONIBLES:\n" +
    "- Tienes acceso a una herramienta especial llamada 'search_web'. ÚSALA SIEMPRE que necesites información del mundo real, actual o que no esté en tu conocimiento base (ej: \"restaurantes abiertos ahora\", \"dirección de X sitio\", \"eventos en Madrid\").\n" +
    "- NO inventes direcciones ni lugares. Si no lo sabes, usa 'search_web'.\n\n" +
    "WORKFLOW DE BÚSQUEDA Y AGREGADO:\n" +
    "1. BÚSQUEDA: Cuando el usuario pregunte por lugares (ej: \"farmacias de guardia\", \"restaurantes italianos\"), PRIMERO usa la herramienta 'search_web' para encontrar información real.\n" +
    "2. PRESENTACIÓN: El sistema te devolverá un resumen con los lugares encontrados. Preséntalos al usuario.\n" +
    "3. AGREGADO: SI el usuario elige una opción para añadir (ej: \"añade la primera\"), ENTONCES:\n" +
    "   a. Usa la herramienta 'search_location'. IMPORTANTE: En el parámetro 'query', usa SOLO la calle y el número (ej: \"Calle Fernando Guanarteme, 46\"). ELIMINA el nombre del negocio, código postal, ciudad y provincia, o la búsqueda fallará.\n" +
    "   b. Usa la herramienta 'add_marker' con los datos obtenidos para guardarlo en el mapa.\n\n" +
    "IMPORTANTE: Cuando el usuario pida agregar, buscar o gestionar marcadores, DEBES usar las herramientas disponibles.\n" +
    "No solo describas lo que harías, EJECUTA las herramientas.\n\n" +
    "Responde de forma concisa, amigable y útil."

  function SystemInstruction(mapContext: string): (s: string)
    ensures PromptOpening + mapContext <= s
  {
    PromptOpening + mapContext + PromptTail
  }

  /** A prior turn's role as this route maps it: only "assistant" speaks as the model. */
  function RouteRole(role: string): (r: string)
    ensures r == "model" <==> role == "assistant"
    ensures r == "user" <==> role != "assistant"
  {
    if role == "assistant" then "model" else "user"
  }

  function RouteHistory(h: seq<HistoryMessage>): (cs: seq<Content>)
    ensures |cs| == |h|
    ensures forall i :: 0 <= i < |h| ==> cs[i].text == h[i].parts && cs[i].role == RouteRole(h[i].role)
  {
    seq(|h|, i requires 0 <= i < |h| => Content(RouteRole(h[i].role), h[i].parts))
  }

  /**
   * The history the chat store produces reaches the model as user turns only:
   * the store writes "model", and this route only recognises "assistant".
   */
  lemma StoreHistoryArrivesAsUser(ms: seq<ChatMessage>)
    ensures forall i :: 0 <= i < |RouteHistory(HistoryOf(ms))| ==> RouteHistory(HistoryOf(ms))[i].role == "user"
  {
    HistoryHasNoAssistantRole(ms);
  }

  // ---------------------------------------------------------------------------
  // The tool loop

  /** What the model session is set up with: the instruction, the declared tools and the prior turns. */
  datatype Setup = Setup(systemInstruction: string, tools: seq<FunctionDeclaration>, history: seq<Content>)

  /** The route's answer, and every message sent to the model, in order. */
  datatype Exchange = Exchange(response: Response, sent: seq<Outgoing>)

  function SessionSetup(body: RequestBody, fmt: NumberFormat): (s: Setup)
    ensures s.history == RouteHistory(body.conversationHistory)
  {
    Setup(SystemInstruction(ContextText(body.markers, body.center, fmt)), ConvertTools(AvailableTools),
          RouteHistory(body.conversationHistory))
  }

  /**
   * One round's calls, executed in order against the request's markers. The
   * id and geocoder inputs are indexed by the call's position among all the
   * calls of the request.
   */
  function RunCalls(calls: seq<FunctionCall>, markers: seq<Location>, freshIds: nat -> MarkerId,
                    geocodes: nat -> Option<seq<Place>>, base: nat): (used: seq<ToolUse>)
    ensures |used| == |calls|
  {
    seq(|calls|, i requires 0 <= i < |calls| =>
      ToolUse(calls[i].name, calls[i].args,
              ExecuteServerAction(calls[i].name, calls[i].args, markers, freshIds(base + i), geocodes(base + i))))
  }

  /** Where the loop stops: the last text, the calls run, what was sent, the rounds, and any thrown value. */
  datatype LoopEnd = LoopEnd(text: string, used: seq<ToolUse>, sent: seq<Outgoing>, depth: nat,
                             pending: seq<FunctionCall>, error: Option<ErrorValue>)

  /**
   * The loop from a given round on: while the last reply has calls and fewer
   * than `MaxDepth` rounds ran, run them all and send their results in one
   * message, whose reply is `replies(|sent|)`.
   */
  function RouteLoop(markers: seq<Location>, replies: nat -> SdkReply, freshIds: nat -> MarkerId,
                     geocodes: nat -> Option<seq<Place>>,
                     depth: nat, calls: seq<FunctionCall>, text: string, used: seq<ToolUse>, sent: seq<Outgoing>)
    : (e: LoopEnd)
    requires depth <= MaxDepth
    ensures depth <= e.depth <= MaxDepth
    ensures |e.sent| == |sent| + (e.depth - depth)
    ensures |used| <= |e.used| && e.used[..|used|] == used
    ensures e.error.None? && e.pending != [] ==> e.depth == MaxDepth
    decreases MaxDepth - depth
  {
    if calls == [] || depth >= MaxDepth then LoopEnd(text, used, sent, depth, calls, None)
    else
      var round := RunCalls(calls, markers, freshIds, geocodes, |used|);
      var sent' := sent + [Responses(ResponsesOf(round))];
      match replies(|sent|)
      case Threw(err) => LoopEnd(text, used + round, sent', depth + 1, [], Some(err))
      case Replied(next, nextText) =>
        var e := RouteLoop(markers, replies, freshIds, geocodes, depth + 1, next, nextText, used + round, sent');
        assert (used + round)[..|used|] == used;
        assert e.used[..|used|] == e.used[..|used + round|][..|used|];
        e
  }

  /**
   * `POST`: the answer and the messages sent. Only a valid request with a key
   * reaches the model; a thrown value ends the route with its message.
   */
  function PostSpec(body: RequestBody, apiKey: Option<string>, replies: nat -> SdkReply,
                    freshIds: nat -> MarkerId, geocodes: nat -> Option<seq<Place>>): (ex: Exchange)
    ensures ex.response.Ok? ==> |ex.sent| <= 1 + MaxDepth
    ensures ex.response.Ok? && ex.response.toolsUsed.Some? ==> ex.response.toolsUsed.value != []
    ensures ex.sent != [] <==> ValidMessage(body.userMessage) && apiKey.Some? && apiKey.value != ""
  {
    if !ValidMessage(body.userMessage) then Exchange(BadRequest(MissingMessageError), [])
    else if apiKey.None? || apiKey.value == "" then Exchange(ServerError(MissingKeyError), [])
    else
      var first := [UserText(body.userMessage.s)];
      match replies(0)
      case Threw(err) => Exchange(ServerError(ErrorMessage(err)), first)
      case Replied(calls, text) =>
        var e := RouteLoop(body.markers, replies, freshIds, geocodes, 0, calls, text, [], first);
        var response :=
          if e.error.Some? then ServerError(ErrorMessage(e.error.value))
          else Ok(e.text, if |e.used| > 0 then Some(e.used) else None);
        Exchange(response, e.sent)
  }

  /** A valid request whose first reply answered: the route's answer is the loop's end. */
  lemma PostRunsLoop(body: RequestBody, apiKey: Option<string>, replies: nat -> SdkReply,
                     freshIds: nat -> MarkerId, geocodes: nat -> Option<seq<Place>>)
    requires ValidMessage(body.userMessage) && apiKey.Some? && apiKey.value != ""
    requires replies(0).Replied?
    ensures var e := RouteLoop(body.markers, replies, freshIds, geocodes, 0, replies(0).calls, replies(0).text, [],
                               [UserText(body.userMessage.s)]);
      var ex := PostSpec(body, apiKey, replies, freshIds, geocodes);
      ex.sent == e.sent
      && (e.error.Some? ==> ex.response == ServerError(ErrorMessage(e.error.value)))
      && (e.error.None? ==> ex.response == Ok(e.text, if |e.used| > 0 then Some(e.used) else None))
  {
  }

  /** Requests are checked before the key, and both before the model is set up. */
  lemma PostRejects(body: RequestBody, apiKey: Option<string>, replies: nat -> SdkReply,
                    freshIds: nat -> MarkerId, geocodes: nat -> Option<seq<Place>>)
    ensures var ex := PostSpec(body, apiKey, replies, freshIds, geocodes);
      (!ValidMessage(body.userMessage) ==> ex == Exchange(BadRequest(MissingMessageError), []))
      && (ValidMessage(body.userMessage) && (apiKey.None? || apiKey.value == "") ==>
          ex == Exchange(ServerError(MissingKeyError), []))
  {
  }

  /**
   * Unless something was thrown, the loop ends on the last reply received:
   * its text is the answer and its calls are the ones left unrun.
   */
  lemma {:induction false} LoopEndsOnLastReply(markers: seq<Location>, replies: nat -> SdkReply,
                                               freshIds: nat -> MarkerId, geocodes: nat -> Option<seq<Place>>,
                                               depth: nat, calls: seq<FunctionCall>, text: string,
                                               used: seq<ToolUse>, sent: seq<Outgoing>)
    requires depth <= MaxDepth && |sent| > 0
    requires replies(|sent| - 1) == Replied(calls, text)
    ensures var e := RouteLoop(markers, replies, freshIds, geocodes, depth, calls, text, used, sent);
      e.error.None? ==> |e.sent| > 0 && replies(|e.sent| - 1) == Replied(e.pending, e.text)
    decreases MaxDepth - depth
  {
    if calls != [] && depth < MaxDepth && replies(|sent|).Replied? {
      var round := RunCalls(calls, markers, freshIds, geocodes, |used|);
      var sent' := sent + [Responses(ResponsesOf(round))];
      LoopEndsOnLastReply(markers, replies, freshIds, geocodes, depth + 1, replies(|sent|).calls,
                          replies(|sent|).text, used + round, sent');
    }
  }

  /** A model that asks for calls in every reply is cut off after `MaxDepth` rounds, with calls still unrun. */
  lemma {:induction false} LoopCappedAtMaxDepth(markers: seq<Location>, replies: nat -> SdkReply,
                                                freshIds: nat -> MarkerId, geocodes: nat -> Option<seq<Place>>,
                                                depth: nat, calls: seq<FunctionCall>, text: string,
                                                used: seq<ToolUse>, sent: seq<Outgoing>)
    requires depth <= MaxDepth && calls != []
    requires forall k :: replies(k).Replied? && replies(k).calls != []
    ensures var e := RouteLoop(markers, replies, freshIds, geocodes, depth, calls, text, used, sent);
      e.error.None? && e.depth == MaxDepth && e.pending != [] && |e.sent| == |sent| + MaxDepth - depth
    decreases MaxDepth - depth
  {
    if depth < MaxDepth {
      var round := RunCalls(calls, markers, freshIds, geocodes, |used|);
      var sent' := sent + [Responses(ResponsesOf(round))];
      LoopCappedAtMaxDepth(markers, replies, freshIds, geocodes, depth + 1, replies(|sent|).calls,
                           replies(|sent|).text, used + round, sent');
    }
  }

  /**
   * Every call of a round runs against the request's markers as they came in:
   * the calls of the first round are the first entries of `toolsUsed`.
   */
  lemma FirstRoundRecorded(markers: seq<Location>, replies: nat -> SdkReply,
                           freshIds: nat -> MarkerId, geocodes: nat -> Option<seq<Place>>,
                           calls: seq<FunctionCall>, text: string, sent: seq<Outgoing>)
    ensures var e := RouteLoop(markers, replies, freshIds, geocodes, 0, calls, text, [], sent);
      |calls| <= |e.used| && e.used[..|calls|] == RunCalls(calls, markers, freshIds, geocodes, 0)
  {
    if calls != [] {
      var round := RunCalls(calls, markers, freshIds, geocodes, 0);
      var sent' := sent + [Responses(ResponsesOf(round))];
      if replies(|sent|).Replied? {
        var e := RouteLoop(markers, replies, freshIds, geocodes, 1, replies(|sent|).calls, replies(|sent|).text,
                           [] + round, sent');
        assert [] + round == round;
      }
    }
  }

  /**
   * A model that adds a marker and removes it by its new id in the same reply
   * gets a failed removal: the server only looks at the markers of the request.
   */
  lemma SameReplyAddThenRemoveFails(body: RequestBody, apiKey: Option<string>, replies: nat -> SdkReply,
                                    freshIds: nat -> MarkerId, geocodes: nat -> Option<seq<Place>>,
                                    add: Args, remove: Args, text: string)
    requires ValidMessage(body.userMessage) && apiKey.Some? && apiKey.value != ""
    requires replies(0) == Replied([FunctionCall(AddMarkerTool, add), FunctionCall(RemoveMarkerTool, remove)], text)
    requires !LatitudeOutOfRange(add.latitude) && !LongitudeOutOfRange(add.longitude)
    requires !HasId(body.markers, freshIds(0)) && remove.markerId == freshIds(0)
    ensures var ex := PostSpec(body, apiKey, replies, freshIds, geocodes);
      ex.response.Ok? ==>
        ex.response.toolsUsed.Some? && |ex.response.toolsUsed.value| >= 2
        && ex.response.toolsUsed.value[0].result.success
        && ex.response.toolsUsed.value[1].result == Failure(MarkerNotFound)
  {
    var calls := replies(0).calls;
    var first := [UserText(body.userMessage.s)];
    PostRunsLoop(body, apiKey, replies, freshIds, geocodes);
    FirstRoundRecorded(body.markers, replies, freshIds, geocodes, calls, text, first);
    RemoveAfterAddInSameTurnFails(add, remove, body.markers, freshIds(0), geocodes(0));
    var round := RunCalls(calls, body.markers, freshIds, geocodes, 0);
    assert round[1].result == ExecuteServerAction(RemoveMarkerTool, remove, body.markers, freshIds(1), geocodes(1));
  }

  /** The answer of `POST` is the last reply's text, unless something was thrown. */
  lemma PostAnswersWithLastReply(body: RequestBody, apiKey: Option<string>, replies: nat -> SdkReply,
                                 freshIds: nat -> MarkerId, geocodes: nat -> Option<seq<Place>>)
    ensures var ex := PostSpec(body, apiKey, replies, freshIds, geocodes);
      ex.response.Ok? ==> |ex.sent| > 0 && replies(|ex.sent| - 1).Replied?
                          && replies(|ex.sent| - 1).text == ex.response.text
  {
    if ValidMessage(body.userMessage) && apiKey.Some? && apiKey.value != "" && replies(0).Replied? {
      PostRunsLoop(body, apiKey, replies, freshIds, geocodes);
      LoopEndsOnLastReply(body.markers, replies, freshIds, geocodes, 0, replies(0).calls, replies(0).text, [],
                          [UserText(body.userMessage.s)]);
    }
  }

  /**
   * Well-formed tools give declarations in the same order whose required
   * names are all declared; with `CatalogWellFormed` this covers the tools
   * the session is set up with.
   */
  lemma ConvertToolsKeepShape(ts: seq<ToolDefinition>)
    requires forall i :: 0 <= i < |ts| ==> WellFormedTool(ts[i])
    ensures var ds := ConvertTools(ts);
      (forall i :: 0 <= i < |ts| ==> ds[i].name == ts[i].name)
      && (forall i, r :: 0 <= i < |ts| && r in ds[i].required ==> r in DeclKeys(ds[i].properties))
  {
    forall i | 0 <= i < |ts|
      ensures forall r :: r in ConvertTool(ts[i]).required ==> r in DeclKeys(ConvertTool(ts[i]).properties)
    {
      ConvertKeepsShape(ts[i]);
    }
  }

  // ---------------------------------------------------------------------------
  // The route, step by step

  /** The inner loop: run each call of the round, recording it and its response. */
  method RunRound(calls: seq<FunctionCall>, markers: seq<Location>, freshIds: nat -> MarkerId,
                  geocodes: nat -> Option<seq<Place>>, used0: seq<ToolUse>)
    returns (used: seq<ToolUse>, responses: seq<FunctionResponse>)
    ensures used == used0 + RunCalls(calls, markers, freshIds, geocodes, |used0|)
    ensures responses == ResponsesOf(RunCalls(calls, markers, freshIds, geocodes, |used0|))
  {
    ghost var round := RunCalls(calls, markers, freshIds, geocodes, |used0|);
    used, responses := used0, [];
    for i := 0 to |calls|
      invariant used == used0 + round[..i]
      invariant responses == ResponsesOf(round[..i])
    {
      var result := ExecuteServerAction(calls[i].name, calls[i].args, markers, freshIds(|used|), geocodes(|used|));
      assert round[..i + 1] == round[..i] + [ToolUse(calls[i].name, calls[i].args, result)];
      used := used + [ToolUse(calls[i].name, calls[i].args, result)];
      responses := responses + [FunctionResponse(calls[i].name, result)];
    }
    assert round[..|calls|] == round;
  }

  /** The outer loop, from the first reply on. */
  method RunLoop(markers: seq<Location>, replies: nat -> SdkReply, freshIds: nat -> MarkerId,
                 geocodes: nat -> Option<seq<Place>>, calls0: seq<FunctionCall>, text0: string, sent0: seq<Outgoing>)
    returns (e: LoopEnd)
    ensures e == RouteLoop(markers, replies, freshIds, geocodes, 0, calls0, text0, [], sent0)
  {
    var calls, text, used, sent := calls0, text0, [], sent0;
    var depth: nat := 0;
    while calls != [] && depth < MaxDepth
      invariant depth <= MaxDepth
      invariant RouteLoop(markers, replies, freshIds, geocodes, depth, calls, text, used, sent)
             == RouteLoop(markers, replies, freshIds, geocodes, 0, calls0, text0, [], sent0)
      decreases MaxDepth - depth
    {
      var used', responses := RunRound(calls, markers, freshIds, geocodes, used);
      var reply := replies(|sent|);
      sent := sent + [Responses(responses)];
      depth := depth + 1;
      if reply.Threw? {
        return LoopEnd(text, used', sent, depth, [], Some(reply.error));
      }
      calls, text, used := reply.calls, reply.text, used';
    }
    e := LoopEnd(text, used, sent, depth, calls, None);
  }

  method Post(body: RequestBody, apiKey: Option<string>, replies: nat -> SdkReply, freshIds: nat -> MarkerId,
              geocodes: nat -> Option<seq<Place>>, fmt: NumberFormat)
    returns (ex: Exchange, setup: Option<Setup>)
    ensures ex == PostSpec(body, apiKey, replies, freshIds, geocodes)
    ensures setup.Some? <==> ex.sent != []
    ensures setup.Some? ==> setup.value == SessionSetup(body, fmt)
  {
    if !ValidMessage(body.userMessage) {
      return Exchange(BadRequest(MissingMessageError), []), None;
    }
    if apiKey.None? || apiKey.value == "" {
      return Exchange(ServerError(MissingKeyError), []), None;
    }
    setup := Some(SessionSetup(body, fmt));
    var first := [UserText(body.userMessage.s)];
    var reply := replies(0);
    if reply.Threw? {
      return Exchange(ServerError(ErrorMessage(reply.error)), first), setup;
    }
    var e := RunLoop(body.markers, replies, freshIds, geocodes, reply.calls, reply.text, first);
    if e.error.Some? {
      ex := Exchange(ServerError(ErrorMessage(e.error.value)), e.sent);
    } else {
      var toolsUsed := if |e.used| > 0 then Some(e.used) else None;
      ex := Exchange(Ok(e.text, toolsUsed), e.sent);
    }
  }
}
