/**
 * The parts of the generative-model client that the chat code exchanges as
 * data: function calls in a reply, the declarations of the tools, the
 * history entries, and what is sent back. The client itself is not modelled:
 * its replies are an input, one per message sent.
 */
module GenAi {
  import opened Wrappers
  import opened ToolCatalog

  /** A call the model asks for. */
  datatype FunctionCall = FunctionCall(name: string, args: Args)

  /** A thrown value: an `Error` with its message, or anything else. */
  datatype ErrorValue = ErrorObject(message: string) | OtherThrown

  /** What one `sendMessage` gives back: the calls and the text of the reply, or what it threw. */
  datatype SdkReply = Replied(calls: seq<FunctionCall>, text: string) | Threw(error: ErrorValue)

  datatype DeclProperty = DeclProperty(key: string, typ: string, description: string, items: Option<string>)

  datatype FunctionDeclaration = FunctionDeclaration(
    name: string, description: string, paramsType: string, properties: seq<DeclProperty>, required: seq<string>)

  /** One history entry as the chat session takes it. */
  datatype Content = Content(role: string, text: string)

  datatype FunctionResponse = FunctionResponse(name: string, response: ToolResult)

  /** A message sent to the model: the user's text, or the results of its calls. */
  datatype Outgoing = UserText(text: string) | Responses(responses: seq<FunctionResponse>)

  const ObjectType: string := "OBJECT"

  /** The function responses for a list of executed calls: one each, in order. */
  function ResponsesOf(used: seq<ToolUse>): (rs: seq<FunctionResponse>)
    ensures |rs| == |used|
    ensures forall i :: 0 <= i < |used| ==> rs[i].name == used[i].name && rs[i].response == used[i].result
  {
    seq(|used|, i requires 0 <= i < |used| => FunctionResponse(used[i].name, used[i].result))
  }
}
