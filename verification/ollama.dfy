/** The Ollama provider (sub-package `ollama.Provider` and the flat
    `llm.OllamaProvider`, whose logic is the same): a chat request to
    Ollama's `/api/chat`, answered either by one JSON object or by a stream of
    newline-delimited JSON objects. */
module Ollama {
  import opened Wrappers
  import opened Llm
  import Config

  const DefaultEndpoint := "http://localhost:11434/api/chat"

  function Endpoint(p: Config.Profile): (r: string)
    ensures p.endpoint == "" ==> r == DefaultEndpoint
    ensures p.endpoint != "" ==> r == p.endpoint
  {
    if p.endpoint == "" then DefaultEndpoint else p.endpoint
  }

  /** An `/api/chat` request as it goes on the wire (no authorization). */
  datatype ChatRequest = ChatRequest(endpoint: string, model: string, messages: seq<Message>, stream: bool)

  function BuildRequest(p: Config.Profile, systemPrompt: string, userPrompt: string, stream: bool): (r: ChatRequest)
    ensures r.endpoint == Endpoint(p) && r.model == p.model && r.stream == stream
    ensures r.messages == ChatMessages(systemPrompt, userPrompt)
  {
    ChatRequest(Endpoint(p), p.model, ChatMessages(systemPrompt, userPrompt), stream)
  }

  datatype Error =
    | RequestInvalid(url: string)            // "error creating request: …"
    | TransportFailed(reason: string)        // "error making request to ollama: …"
    | BadStatus(status: int, body: string)   // "ollama API request failed with status %d: %s"
    | ResponseUndecodable                    // "error decoding ollama response: …"
    | LineUndecodable(line: string)          // "error decoding ollama stream response: …"
    | StreamReadFailed(reason: string)       // "error reading stream: …"
    | Canceled                               // ctx.Err()

  /** The decoded reply: the `message.content` of the object (empty when the
      object has no message), or a body that is not such an object. */
  datatype ChatBody = BodyUndecodable | Reply(content: string)

  /** `Chat`. */
  function Chat(p: Config.Profile, systemPrompt: string, userPrompt: string, exchange: ChatRequest -> Http<ChatBody>)
    : (r: Result<string, Error>)
    ensures var h := exchange(BuildRequest(p, systemPrompt, userPrompt, false));
            && (h.Unreachable? ==> r == Err(TransportFailed(h.reason)))
            && (h.Answered? && h.status != StatusOK ==> r == Err(BadStatus(h.status, h.raw)))
            && (r.Ok? <==> h.Answered? && h.status == StatusOK && h.body.Reply?)
            && (r.Ok? ==> r.value == h.body.content)
  {
    match exchange(BuildRequest(p, systemPrompt, userPrompt, false))
    case Unreachable(reason) => Err(TransportFailed(reason))
    case Answered(status, raw, body) =>
      if status != StatusOK then Err(BadStatus(status, raw))
      else match body
        case BodyUndecodable => Err(ResponseUndecodable)
        case Reply(content) => Ok(content)
  }

  /** One line of the streamed body, with the `message.content` that
      `json.Unmarshal` finds in it, or `None` when it is not such an object. */
  datatype Line = Line(text: string, decoded: Option<string>)

  /** One iteration of the stream loop: blank lines are skipped, a line that
      does not decode ends the stream with an error, and every other line is
      forwarded, an empty content included. */
  function Classify(line: Line): (s: Step<Error>)
    ensures s == Skip <==> line.text == ""
    ensures s.Fail? <==> line.text != "" && line.decoded.None?
    ensures s.Fail? ==> s.error == LineUndecodable(line.text)
    ensures s.Send? ==> s.chunk == line.decoded.value
  {
    if line.text == "" then Skip
    else match line.decoded
      case None => Fail(LineUndecodable(line.text))
      case Some(content) => Send(content)
  }

  datatype StreamBody = StreamBody(lines: seq<Line>, readError: Option<string>)

  /** `ChatStream`: the request is created first (which parses the
      endpoint), then sent. `Chat` uses `http.Post`, whose parse failure is
      one of its transport errors. */
  function ChatStream(p: Config.Profile, systemPrompt: string, userPrompt: string,
                      parses: UrlParser, exchange: ChatRequest -> Http<StreamBody>, ctx: Ctx): (r: Outcome<Error>)
    ensures !parses(Endpoint(p)) ==> r == Outcome([], Some(RequestInvalid(Endpoint(p))))
    ensures parses(Endpoint(p)) ==>
            var h := exchange(BuildRequest(p, systemPrompt, userPrompt, true));
            && (h.Unreachable? ==> r == Outcome([], Some(TransportFailed(h.reason))))
            && (h.Answered? && h.status != StatusOK ==> r == Outcome([], Some(BadStatus(h.status, h.raw))))
            && (h.Answered? && h.status == StatusOK ==>
                  r == AfterLoop(Relay(Classified(h.body.lines, Classify), ctx, Canceled),
                                 if h.body.readError.Some? then Some(StreamReadFailed(h.body.readError.value)) else None))
  {
    if !parses(Endpoint(p)) then Outcome([], Some(RequestInvalid(Endpoint(p))))
    else match exchange(BuildRequest(p, systemPrompt, userPrompt, true))
    case Unreachable(reason) => Outcome([], Some(TransportFailed(reason)))
    case Answered(status, raw, body) =>
      if status != StatusOK then Outcome([], Some(BadStatus(status, raw)))
      else AfterLoop(Relay(Classified(body.lines, Classify), ctx, Canceled),
                     if body.readError.Some? then Some(StreamReadFailed(body.readError.value)) else None)
  }

  // Reference reading of a stream.

  /** The content of every non-blank line up to the first one that does not
      decode. */
  function Contents(lines: seq<Line>): seq<string>
    decreases |lines|
  {
    if |lines| == 0 then []
    else if lines[0].text == "" then Contents(lines[1..])
    else if lines[0].decoded.None? then []
    else [lines[0].decoded.value] + Contents(lines[1..])
  }

  /** The first non-blank line that does not decode. */
  function FirstUndecodable(lines: seq<Line>): Option<string>
    decreases |lines|
  {
    if |lines| == 0 then None
    else if lines[0].text != "" && lines[0].decoded.None? then Some(lines[0].text)
    else FirstUndecodable(lines[1..])
  }

  /** An uncancelled stream forwards exactly the reference contents, one
      chunk per non-blank line, and fails on the first undecodable line. */
  lemma {:induction false} StreamReadsLines(lines: seq<Line>)
    ensures var o := Relay(Classified(lines, Classify), Background, Canceled);
            && o.sent == Contents(lines)
            && o.error == (if FirstUndecodable(lines).Some? then Some(LineUndecodable(FirstUndecodable(lines).value)) else None)
    decreases |lines|
  {
    if |lines| > 0 {
      assert Classified(lines, Classify)[1..] == Classified(lines[1..], Classify);
      if lines[0].text == "" || lines[0].decoded.Some? {
        StreamReadsLines(lines[1..]);
      }
    }
  }

  datatype ValidationError = ModelRequired   // "Ollama provider requires a 'model' …"

  /** `ValidateConfig`: only the model is required. */
  function ValidateConfig(p: Config.Profile): (r: Result<(), ValidationError>)
    ensures r.Err? <==> p.model == ""
  {
    if p.model == "" then Err(ModelRequired) else Ok(())
  }

  /** A profile that passes validation still sends its model as written, and
      an empty endpoint always means the local server. */
  lemma ValidatedRequest(p: Config.Profile, systemPrompt: string, userPrompt: string, stream: bool)
    requires ValidateConfig(p).Ok?
    ensures BuildRequest(p, systemPrompt, userPrompt, stream).model != ""
    ensures p.endpoint == "" ==> BuildRequest(p, systemPrompt, userPrompt, stream).endpoint == DefaultEndpoint
  {
  }
}
