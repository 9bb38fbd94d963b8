/** The OpenAI-compatible providers: the sub-package `openai.Provider` and the
    flat `llm.OpenAIProvider`. Both build the same request and read the same
    Server-Sent-Events stream (a simplified reading of section 9.2 of the
    HTML Living Standard: only lines that start with exactly `data: ` carry
    payloads). The sub-package adds a credentials file and `ValidateConfig`. */
module OpenAI {
  import opened Wrappers
  import opened Llm
  import Config
  import GoStrings

  const DefaultEndpoint := "https://api.openai.com/v1/chat/completions"

  /** The endpoint a request goes to: the profile's, or the public API's when
      the profile leaves it empty. */
  function Endpoint(p: Config.Profile): (r: string)
    ensures p.endpoint == "" ==> r == DefaultEndpoint
    ensures p.endpoint != "" ==> r == p.endpoint
    ensures r != ""
  {
    if p.endpoint == "" then DefaultEndpoint else p.endpoint
  }

  /** A chat-completions request as it goes on the wire. */
  datatype ChatRequest = ChatRequest(
    endpoint: string,
    model: string,
    messages: seq<Message>,
    stream: bool,
    authorization: Option<string>)   // the Authorization header, if set

  /** The Authorization header: set exactly when the key is non-empty. */
  function Authorization(key: string): (r: Option<string>)
    ensures r.None? <==> key == ""
    ensures r.Some? ==> r.value == "Bearer " + key
  {
    if key == "" then None else Some("Bearer " + key)
  }

  function BuildRequest(endpoint: string, model: string, systemPrompt: string, userPrompt: string, stream: bool, key: string)
    : (r: ChatRequest)
    ensures r.endpoint == endpoint && r.model == model && r.stream == stream
    ensures r.messages == ChatMessages(systemPrompt, userPrompt)
    ensures r.authorization == Authorization(key)
  {
    ChatRequest(endpoint, model, ChatMessages(systemPrompt, userPrompt), stream, Authorization(key))
  }

  // ---------------------------------------------------------------------
  // Credentials file

  datatype KeyFileError =
    | PathUnresolvable(path: string)   // "failed to resolve credentials file path …"
    | Unreadable(resolved: string)     // "failed to read credentials file …"
    | Undecodable(resolved: string)    // "failed to unmarshal credentials from file …"
    | KeyMissing(resolved: string)     // "openai_api_key is missing in credentials file …"

  const KeyField := "openai_api_key"

  /** `loadOpenAIAPIKeyFromFile`: resolve the path, read and decode the file,
      and insist on a non-empty `openai_api_key`. */
  function LoadKeyFile(path: string, host: Host): (r: Result<string, KeyFileError>)
    ensures Config.ResolvePath(path, host.home, host.workingDir).Err? ==> r == Err(PathUnresolvable(path))
    ensures r.Ok? ==> && Config.ResolvePath(path, host.home, host.workingDir).Ok?
                      && var resolved := Config.ResolvePath(path, host.home, host.workingDir).value;
                         resolved in host.files && host.files[resolved].Fields?
                         && r.value == host.files[resolved].Field(KeyField) && r.value != ""
    ensures r.Err? && r.error.KeyMissing? ==> var resolved := r.error.resolved;
              resolved in host.files && host.files[resolved].Fields? && host.files[resolved].Field(KeyField) == ""
  {
    match Config.ResolvePath(path, host.home, host.workingDir)
    case Err(_) => Err(PathUnresolvable(path))
    case Ok(resolved) =>
      if resolved !in host.files then Err(Unreadable(resolved))
      else match host.files[resolved]
        case Fields(_) =>
          var key := host.files[resolved].Field(KeyField);
          if key == "" then Err(KeyMissing(resolved)) else Ok(key)
        case _ => Err(Undecodable(resolved))
  }

  // ---------------------------------------------------------------------
  // Responses

  /** The decoded chat-completions body: each choice's message content. */
  datatype ChatBody = BodyUndecodable | Choices(contents: seq<string>)

  datatype Error =
    | CredentialsFailed(file: string, cause: KeyFileError)  // "failed to load OpenAI API key from file %s: …"
    | KeyFileFailed(cause: KeyFileError)                   // the same failure, returned unwrapped
    | RequestInvalid(url: string)            // "error creating request: …"
    | TransportFailed(reason: string)        // "error making request to openai-compatible api: …"
    | BadStatus(status: int, body: string)   // "openai-compatible api request failed with status %d: %s"
    | ResponseUndecodable                    // "error decoding openai response: …"
    | NoChoices                              // "no choices returned from openai-compatible api"
    | StreamPayloadError(data: string)       // "streaming error: %s"
    | StreamReadFailed(reason: string)       // "error reading stream: …"
    | Canceled                               // ctx.Err()
    | ModelUnresolvable(setting: string)     // "could not resolve a valid model from the priority list: [%s]"

  /** What `Chat` makes of the exchange once the request is sent. */
  function ChatAnswer(h: Http<ChatBody>): (r: Result<string, Error>)
    ensures h.Unreachable? ==> r == Err(TransportFailed(h.reason))
    ensures h.Answered? && h.status != StatusOK ==> r == Err(BadStatus(h.status, h.raw))
    ensures r.Ok? <==> h.Answered? && h.status == StatusOK && h.body.Choices? && |h.body.contents| > 0
    ensures r.Ok? ==> r.value == h.body.contents[0]
    ensures h.Answered? && h.status == StatusOK && h.body == Choices([]) ==> r == Err(NoChoices)
  {
    match h
    case Unreachable(reason) => Err(TransportFailed(reason))
    case Answered(status, raw, body) =>
      if status != StatusOK then Err(BadStatus(status, raw))
      else match body
        case BodyUndecodable => Err(ResponseUndecodable)
        case Choices(contents) => if |contents| == 0 then Err(NoChoices) else Ok(contents[0])
  }

  // ---------------------------------------------------------------------
  // Key precedence

  /** The key the sub-package sends: the credentials file's, which overrides
      the inline key whenever a file is named. */
  function EffectiveKey(p: Config.Profile, host: Host): (r: Result<string, Error>)
    ensures p.credentialsFile == "" ==> r == Ok(p.apiKey)
    ensures p.credentialsFile != "" ==> match LoadKeyFile(p.credentialsFile, host)
                                         case Ok(k) => r == Ok(k)
                                         case Err(e) => r == Err(CredentialsFailed(p.credentialsFile, e))
  {
    if p.credentialsFile == "" then Ok(p.apiKey)
    else match LoadKeyFile(p.credentialsFile, host)
      case Ok(k) => Ok(k)
      case Err(e) => Err(CredentialsFailed(p.credentialsFile, e))
  }

  /** `openai.Provider.Chat`: the request is created (which parses the
      endpoint) before the key file is loaded. */
  function Chat(p: Config.Profile, systemPrompt: string, userPrompt: string, host: Host,
                parses: UrlParser, exchange: ChatRequest -> Http<ChatBody>): (r: Result<string, Error>)
    ensures !parses(Endpoint(p)) ==> r == Err(RequestInvalid(Endpoint(p)))
    ensures parses(Endpoint(p)) && EffectiveKey(p, host).Err? ==> r == Err(EffectiveKey(p, host).error)
    ensures parses(Endpoint(p)) && EffectiveKey(p, host).Ok? ==>
              r == ChatAnswer(exchange(BuildRequest(Endpoint(p), p.model, systemPrompt, userPrompt, false,
                                                    EffectiveKey(p, host).value)))
  {
    if !parses(Endpoint(p)) then Err(RequestInvalid(Endpoint(p)))
    else
      var key :- EffectiveKey(p, host);
      ChatAnswer(exchange(BuildRequest(Endpoint(p), p.model, systemPrompt, userPrompt, false, key)))
  }

  /** `llm.OpenAIProvider.Chat`: only the inline key, no credentials file, so
      no key error can arise. */
  function LegacyChat(p: Config.Profile, systemPrompt: string, userPrompt: string,
                      parses: UrlParser, exchange: ChatRequest -> Http<ChatBody>): (r: Result<string, Error>)
    ensures !parses(Endpoint(p)) ==> r == Err(RequestInvalid(Endpoint(p)))
    ensures r.Err? ==> !r.error.CredentialsFailed? && !r.error.KeyFileFailed?
    ensures parses(Endpoint(p)) ==>
              var h := exchange(BuildRequest(Endpoint(p), p.model, systemPrompt, userPrompt, false, p.apiKey));
              && h == exchange(ChatRequest(Endpoint(p), p.model, ChatMessages(systemPrompt, userPrompt), false,
                                           Authorization(p.apiKey)))
              && r == ChatAnswer(h)
  {
    if !parses(Endpoint(p)) then Err(RequestInvalid(Endpoint(p)))
    else ChatAnswer(exchange(BuildRequest(Endpoint(p), p.model, systemPrompt, userPrompt, false, p.apiKey)))
  }

  /** The two revisions send the same request, and so answer alike, unless the
      profile names a credentials file. */
  lemma ChatRevisionsAgree(p: Config.Profile, systemPrompt: string, userPrompt: string, host: Host,
                           parses: UrlParser, exchange: ChatRequest -> Http<ChatBody>)
    requires p.credentialsFile == ""
    ensures Chat(p, systemPrompt, userPrompt, host, parses, exchange)
            == LegacyChat(p, systemPrompt, userPrompt, parses, exchange)
  {
  }

  // ---------------------------------------------------------------------
  // The event stream

  const DataPrefix := "data: "
  const DoneLine := "data: [DONE]"
  const ErrorMarker := "\"error\":"

  /** One line of the response body, with what `json.Unmarshal` of its data
      part into the stream-chunk struct yields: the choices' delta contents,
      or `None` when that fails. */
  datatype SseLine = SseLine(text: string, decoded: Option<seq<string>>)

  /** The payload of a data line other than the end marker. */
  function Payload(line: SseLine): (r: Option<string>)
    ensures r.Some? <==> GoStrings.HasPrefix(line.text, DataPrefix) && line.text != DoneLine
    ensures r.Some? ==> DataPrefix + r.value == line.text
  {
    if !GoStrings.HasPrefix(line.text, DataPrefix) || line.text == DoneLine then None
    else Some(GoStrings.TrimPrefix(line.text, DataPrefix))
  }

  /** One iteration of the stream loop. */
  function Classify(line: SseLine): (s: Step<Error>)
    ensures Payload(line).None? ==> s == Skip
    ensures Payload(line).Some? && GoStrings.Contains(Payload(line).value, ErrorMarker) ==>
              s == Fail(StreamPayloadError(Payload(line).value))
    ensures s.Send? <==> && Payload(line).Some? && !GoStrings.Contains(Payload(line).value, ErrorMarker)
                         && line.decoded.Some? && |line.decoded.value| > 0
    ensures s.Send? ==> s.chunk == line.decoded.value[0]
  {
    match Payload(line)
    case None => Skip
    case Some(data) =>
      if GoStrings.Contains(data, ErrorMarker) then Fail(StreamPayloadError(data))
      else match line.decoded
        case None => Skip
        case Some(choices) => if |choices| > 0 then Send(choices[0]) else Skip
  }

  /** The body of a streamed response: its lines, then what `scanner.Err()`
      reports. */
  datatype StreamBody = StreamBody(lines: seq<SseLine>, readError: Option<string>)

  /** Everything after the request is sent, shared by every OpenAI-compatible
      `ChatStream`. */
  function StreamAnswer(h: Http<StreamBody>, ctx: Ctx): (r: Outcome<Error>)
    ensures h.Unreachable? ==> r == Outcome([], Some(TransportFailed(h.reason)))
    ensures h.Answered? && h.status != StatusOK ==> r == Outcome([], Some(BadStatus(h.status, h.raw)))
    ensures h.Answered? && h.status == StatusOK ==>
              var loop := Relay(Classified(h.body.lines, Classify), ctx, Canceled);
              r == AfterLoop(loop, if h.body.readError.Some? then Some(StreamReadFailed(h.body.readError.value)) else None)
  {
    match h
    case Unreachable(reason) => Outcome([], Some(TransportFailed(reason)))
    case Answered(status, raw, body) =>
      if status != StatusOK then Outcome([], Some(BadStatus(status, raw)))
      else
        var loop := Relay(Classified(body.lines, Classify), ctx, Canceled);
        AfterLoop(loop, if body.readError.Some? then Some(StreamReadFailed(body.readError.value)) else None)
  }

  /** `openai.Provider.ChatStream`: the request is created before the key
      file is loaded. */
  function ChatStream(p: Config.Profile, systemPrompt: string, userPrompt: string, host: Host,
                      parses: UrlParser, exchange: ChatRequest -> Http<StreamBody>, ctx: Ctx): (r: Outcome<Error>)
    ensures !parses(Endpoint(p)) ==> r == Outcome([], Some(RequestInvalid(Endpoint(p))))
    ensures parses(Endpoint(p)) && EffectiveKey(p, host).Err? ==> r == Outcome([], Some(EffectiveKey(p, host).error))
    ensures parses(Endpoint(p)) && EffectiveKey(p, host).Ok? ==>
              r == StreamAnswer(exchange(BuildRequest(Endpoint(p), p.model, systemPrompt, userPrompt, true,
                                                      EffectiveKey(p, host).value)), ctx)
  {
    if !parses(Endpoint(p)) then Outcome([], Some(RequestInvalid(Endpoint(p))))
    else match EffectiveKey(p, host)
      case Err(e) => Outcome([], Some(e))
      case Ok(key) => StreamAnswer(exchange(BuildRequest(Endpoint(p), p.model, systemPrompt, userPrompt, true, key)), ctx)
  }

  /** `llm.OpenAIProvider.ChatStream`: only the inline key. */
  function LegacyChatStream(p: Config.Profile, systemPrompt: string, userPrompt: string,
                            parses: UrlParser, exchange: ChatRequest -> Http<StreamBody>, ctx: Ctx): (r: Outcome<Error>)
    ensures !parses(Endpoint(p)) ==> r == Outcome([], Some(RequestInvalid(Endpoint(p))))
    ensures parses(Endpoint(p)) ==>
              r == StreamAnswer(exchange(ChatRequest(Endpoint(p), p.model, ChatMessages(systemPrompt, userPrompt), true,
                                                     Authorization(p.apiKey))), ctx)
  {
    if !parses(Endpoint(p)) then Outcome([], Some(RequestInvalid(Endpoint(p))))
    else StreamAnswer(exchange(BuildRequest(Endpoint(p), p.model, systemPrompt, userPrompt, true, p.apiKey)), ctx)
  }

  /** The two revisions stream alike unless the profile names a credentials
      file. */
  lemma ChatStreamRevisionsAgree(p: Config.Profile, systemPrompt: string, userPrompt: string, host: Host,
                                 parses: UrlParser, exchange: ChatRequest -> Http<StreamBody>, ctx: Ctx)
    requires p.credentialsFile == ""
    ensures ChatStream(p, systemPrompt, userPrompt, host, parses, exchange, ctx)
            == LegacyChatStream(p, systemPrompt, userPrompt, parses, exchange, ctx)
  {
  }

  // Reference reading of a stream, line by line.

  /** The chunk a line contributes, when it is not an error payload. */
  function Delta(line: SseLine): seq<string> {
    if Payload(line).Some? && line.decoded.Some? && |line.decoded.value| > 0 then [line.decoded.value[0]] else []
  }

  predicate IsErrorLine(line: SseLine) {
    Payload(line).Some? && GoStrings.Contains(Payload(line).value, ErrorMarker)
  }

  /** The first choice's delta of every decodable data line, up to the first
      error payload. */
  function Forwarded(lines: seq<SseLine>): seq<string>
    decreases |lines|
  {
    if |lines| == 0 || IsErrorLine(lines[0]) then [] else Delta(lines[0]) + Forwarded(lines[1..])
  }

  /** The first error payload, if any line carries one. */
  function FirstErrorPayload(lines: seq<SseLine>): Option<string>
    decreases |lines|
  {
    if |lines| == 0 then None
    else if IsErrorLine(lines[0]) then Some(Payload(lines[0]).value)
    else FirstErrorPayload(lines[1..])
  }

  /** An uncancelled stream forwards exactly the reference chunks and stops
      at the first error payload with that payload. */
  lemma {:induction false} StreamReadsLines(lines: seq<SseLine>)
    ensures var o := Relay(Classified(lines, Classify), Background, Canceled);
            && o.sent == Forwarded(lines)
            && o.error == (if FirstErrorPayload(lines).Some? then Some(StreamPayloadError(FirstErrorPayload(lines).value)) else None)
    decreases |lines|
  {
    if |lines| > 0 {
      var steps := Classified(lines, Classify);
      assert steps[1..] == Classified(lines[1..], Classify);
      if !IsErrorLine(lines[0]) {
        StreamReadsLines(lines[1..]);
      }
    }
  }

  /** The end marker, a line without the exact `data: ` prefix, and a
      comment line are skipped, whatever their decoding. */
  lemma SkippedLineExamples(decoded: Option<seq<string>>)
    ensures Classify(SseLine("data: [DONE]", decoded)) == Skip
    ensures Classify(SseLine("data:{}", decoded)) == Skip
    ensures Classify(SseLine(": keep-alive", decoded)) == Skip
  {
    assert ("data:{}")[5] != DataPrefix[5];
    assert (": keep-alive")[0] != DataPrefix[0];
  }

  /** A payload naming an error aborts the stream with that payload. */
  lemma ErrorLineExample(decoded: Option<seq<string>>)
    ensures Classify(SseLine("data: {\"error\": 1}", decoded)) == Fail(StreamPayloadError("{\"error\": 1}"))
  {
    var e := "{\"error\": 1}";
    assert e[1..][..|ErrorMarker|] == ErrorMarker;
    assert GoStrings.Contains(e, ErrorMarker);
    var t := "data: {\"error\": 1}";
    assert t[..|DataPrefix|] == DataPrefix;
    assert t[|DataPrefix|..] == e;
  }

  /** A decodable payload forwards its first choice's delta. */
  lemma DataLineExample()
    ensures Classify(SseLine("data: {}", Some(["hi"]))) == Send("hi")
  {
    var d := "{}";
    assert !GoStrings.Contains(d, ErrorMarker);
    var t := "data: {}";
    assert t[..|DataPrefix|] == DataPrefix;
    assert t[|DataPrefix|..] == d;
  }

  // ---------------------------------------------------------------------
  // ValidateConfig

  datatype ValidationError =
    | ModelRequired                        // "OpenAI provider requires a 'model' …"
    | KeyRequired                          // "… (using default endpoint) requires either 'api-key' or 'credentials-file' …"
    | EndpointRequired                     // "… (using custom endpoint) requires 'endpoint' …"
    | CredentialsPathUnresolvable(path: string)
    | CredentialsFileNotFound(resolved: string)

  /** `openai.Provider.ValidateConfig`; a credentials file passes unless
      `os.Stat` reports it missing, so a file that exists but cannot be read
      passes too. */
  function ValidateConfig(p: Config.Profile, host: Host): (r: Result<(), ValidationError>)
    ensures p.model == "" ==> r == Err(ModelRequired)
    ensures p.model != "" && Endpoint(p) == DefaultEndpoint && p.apiKey == "" && p.credentialsFile == "" ==>
              r == Err(KeyRequired)
    ensures r.Ok? <==> && p.model != ""
                       && (Endpoint(p) == DefaultEndpoint ==> p.apiKey != "" || p.credentialsFile != "")
                       && (p.credentialsFile != "" ==>
                             Config.ResolvePath(p.credentialsFile, host.home, host.workingDir).Ok?
                             && host.StatFinds(Config.ResolvePath(p.credentialsFile, host.home, host.workingDir).value))
    ensures r.Err? && r.error.CredentialsFileNotFound? ==> !host.StatFinds(r.error.resolved)
  {
    if p.model == "" then Err(ModelRequired)
    else if Endpoint(p) == DefaultEndpoint && p.apiKey == "" && p.credentialsFile == "" then Err(KeyRequired)
    else if Endpoint(p) != DefaultEndpoint && p.endpoint == "" then Err(EndpointRequired)
    else if p.credentialsFile == "" then Ok(())
    else match Config.ResolvePath(p.credentialsFile, host.home, host.workingDir)
      case Err(_) => Err(CredentialsPathUnresolvable(p.credentialsFile))
      case Ok(resolved) => if host.StatFinds(resolved) then Ok(()) else Err(CredentialsFileNotFound(resolved))
  }

  /** The custom-endpoint check can never fire: an effective endpoint other
      than the default comes from a non-empty profile endpoint. */
  lemma EndpointRequiredUnreachable(p: Config.Profile, host: Host)
    ensures ValidateConfig(p, host) != Err(EndpointRequired)
  {
  }

  /** After validation with a credentials file, loading the key still fails
      on a file that exists but cannot be read; a readable file fails only on
      its content. */
  lemma ValidatedFileIsFound(p: Config.Profile, host: Host)
    requires ValidateConfig(p, host).Ok? && p.credentialsFile != ""
    ensures var resolved := Config.ResolvePath(p.credentialsFile, host.home, host.workingDir).value;
            && (resolved in host.files && EffectiveKey(p, host).Err? ==>
                  EffectiveKey(p, host).error.cause.Undecodable? || EffectiveKey(p, host).error.cause.KeyMissing?)
            && (resolved !in host.files ==> EffectiveKey(p, host) == Err(CredentialsFailed(p.credentialsFile, Unreadable(resolved))))
  {
  }
}
