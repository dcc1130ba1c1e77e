/**
 * The model gateway (`callOllama`): one blocking, non-streaming request to a
 * local chat-completion endpoint. The endpoint itself is a parameter: a
 * function from the request to what came back over the network.
 */
module Gateway {
  import opened Wrappers
  import opened JsText

  /** One chat message sent to the model. */
  datatype Message = Message(role: string, content: string)

  /** The request body: model name, messages, no streaming, fixed sampling options. */
  datatype ChatRequest = ChatRequest(
    model: string,
    messages: seq<Message>,
    stream: bool,
    temperature: real,
    topP: real)

  /** What one request can come back with. */
  datatype Exchange =
    | Replied(content: Option<string>)     // a success status; `message.content` of the body, if any
    | Rejected(status: int, body: string)  // a non-success status and whatever body could be read
    | Faulted(message: string)             // the transport failed or the body was not JSON

  /** The chat-completion endpoint, as seen by the server. */
  type ChatEndpoint = ChatRequest -> Exchange

  const DefaultModel: string := "llama3"
  const Temperature: real := 0.8
  const TopP: real := 0.95

  /** The placeholder used when the model's reply is absent or blank. */
  const NoResponse: string := "(no response)"

  /** The model name: the configured one, or "llama3" when none is set. */
  function ModelName(configured: Option<string>): (r: string)
    ensures r != ""
    ensures configured.Some? && configured.value != "" ==> r == configured.value
    ensures configured.None? || configured.value == "" ==> r == DefaultModel
  {
    if configured.Some? && configured.value != "" then configured.value else DefaultModel
  }

  /** The request body for a list of messages. */
  function BuildRequest(model: string, messages: seq<Message>): (r: ChatRequest)
    ensures r.model == model && r.messages == messages
    ensures !r.stream && r.temperature == Temperature && r.topP == TopP
  {
    ChatRequest(model, messages, false, Temperature, TopP)
  }

  /**
   * The narration taken from a reply's content: the content with its white
   * space trimmed, or "(no response)" when there is no content or only
   * white space. It is never blank.
   */
  function ReplyText(content: Option<string>): (r: string)
    ensures r != ""
    ensures !IsWhiteSpace(r[0]) && !IsWhiteSpace(r[|r| - 1])
    ensures content.None? ==> r == NoResponse
    ensures content.Some? && (forall k :: 0 <= k < |content.value| ==> IsWhiteSpace(content.value[k]))
            ==> r == NoResponse
    ensures content.Some? && (exists k :: 0 <= k < |content.value| && !IsWhiteSpace(content.value[k]))
            ==> r == Trim(content.value)
  {
    if content.Some? && Trim(content.value) != "" then Trim(content.value)
    else
      NoResponseIsTrimmed();
      NoResponse
  }

  /** The placeholder neither starts nor ends with white space. */
  lemma NoResponseIsTrimmed()
    ensures |NoResponse| > 0 && !IsWhiteSpace(NoResponse[0]) && !IsWhiteSpace(NoResponse[|NoResponse| - 1])
  {
    assert NoResponse[0] == '(' && NoResponse[|NoResponse| - 1] == ')';
  }

  /**
   * One call to the model: the narration on a success status, and otherwise
   * a failure carrying either "Ollama error: <status> <body>" or the
   * transport's own message.
   */
  function CallModel(endpoint: ChatEndpoint, model: string, messages: seq<Message>): (r: Result<string, string>)
    ensures r.Success? <==> endpoint(BuildRequest(model, messages)).Replied?
    ensures r.Success? ==> r.value == ReplyText(endpoint(BuildRequest(model, messages)).content)
    ensures endpoint(BuildRequest(model, messages)).Rejected? ==>
      r.error == "Ollama error: " + IntToString(endpoint(BuildRequest(model, messages)).status)
                 + " " + endpoint(BuildRequest(model, messages)).body
    ensures endpoint(BuildRequest(model, messages)).Faulted? ==>
      r.error == endpoint(BuildRequest(model, messages)).message
  {
    match endpoint(BuildRequest(model, messages))
    case Replied(content) => Success(ReplyText(content))
    case Rejected(status, body) => Failure("Ollama error: " + IntToString(status) + " " + body)
    case Faulted(message) => Failure(message)
  }
}
