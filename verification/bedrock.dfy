/** The Amazon Bedrock providers: the sub-package `bedrock.NovaProvider`, the
    flat `llm.NovaBedrockProvider` (both speak the Nova Messages API), and the
    flat `llm.BedrockProvider`, which speaks the Claude text-completion API.
    The AWS SDK is an input: loading its configuration, `InvokeModel` and
    `InvokeModelWithResponseStream` are functions of the options and the
    request. */
module Bedrock {
  import opened Wrappers
  import opened Llm
  import opened GoJson
  import Config
  import GoStrings

  // ---------------------------------------------------------------------
  // Client

  datatype AwsCredentials = AwsCredentials(accessKeyId: string, secretAccessKey: string)

  /** Where the client's credentials come from: a static provider, or the
      SDK's default chain (environment, shared files, instance role). */
  datatype CredentialSource = Static(credentials: AwsCredentials) | DefaultChain

  /** The options handed to `config.LoadDefaultConfig`. */
  datatype AwsOptions = AwsOptions(region: string, credentials: CredentialSource)

  datatype CredentialsFileError =
    | PathUnresolvable(path: string)   // "failed to resolve credentials file path …"
    | Unreadable(resolved: string)     // "failed to read credentials file …"
    | Undecodable(resolved: string)    // "failed to unmarshal credentials from file …"
    | KeysMissing(resolved: string)    // "aws_access_key_id or aws_secret_access_key is missing …"

  const AccessKeyField := "aws_access_key_id"
  const SecretKeyField := "aws_secret_access_key"

  /** `loadAWSCredentialsFromFile`: resolve the path, read and decode the
      file, and insist on both keys. */
  function LoadCredentialsFile(path: string, host: Host): (r: Result<AwsCredentials, CredentialsFileError>)
    ensures Config.ResolvePath(path, host.home, host.workingDir).Err? ==> r == Err(PathUnresolvable(path))
    ensures r.Ok? ==> && Config.ResolvePath(path, host.home, host.workingDir).Ok?
                      && var resolved := Config.ResolvePath(path, host.home, host.workingDir).value;
                         resolved in host.files && host.files[resolved].Fields?
                         && r.value == AwsCredentials(host.files[resolved].Field(AccessKeyField),
                                                      host.files[resolved].Field(SecretKeyField))
                         && r.value.accessKeyId != "" && r.value.secretAccessKey != ""
    ensures r.Err? && r.error.KeysMissing? ==> var resolved := r.error.resolved;
              && resolved in host.files && host.files[resolved].Fields?
              && (host.files[resolved].Field(AccessKeyField) == "" || host.files[resolved].Field(SecretKeyField) == "")
  {
    match Config.ResolvePath(path, host.home, host.workingDir)
    case Err(_) => Err(PathUnresolvable(path))
    case Ok(resolved) =>
      if resolved !in host.files then Err(Unreadable(resolved))
      else match host.files[resolved]
        case Fields(_) =>
          var creds := AwsCredentials(host.files[resolved].Field(AccessKeyField), host.files[resolved].Field(SecretKeyField));
          if creds.accessKeyId == "" || creds.secretAccessKey == "" then Err(KeysMissing(resolved)) else Ok(creds)
        case _ => Err(Undecodable(resolved))
  }

  datatype ClientError =
    | CredentialsFileFailed(file: string, cause: CredentialsFileError)  // "failed to load AWS credentials from file %s: …"
    | ConfigFailed(reason: string)                                     // "failed to load AWS config: …"

  /** The SDK: `LoadDefaultConfig` (a failure reason, or `None` when it
      succeeds) and the two invocations. */
  datatype Sdk = Sdk(
    loadConfig: AwsOptions -> Option<string>,
    invoke: (AwsOptions, InvokeRequest) -> Invoked,
    invokeStream: (AwsOptions, InvokeRequest) -> StreamInvoked)

  /** The inline keys of a profile, when both are set. */
  function InlineCredentials(p: Config.Profile): (r: CredentialSource)
    ensures r.Static? <==> p.awsAccessKeyId != "" && p.awsSecretAccessKey != ""
    ensures r.Static? ==> r.credentials == AwsCredentials(p.awsAccessKeyId, p.awsSecretAccessKey)
  {
    if p.awsAccessKeyId != "" && p.awsSecretAccessKey != "" then Static(AwsCredentials(p.awsAccessKeyId, p.awsSecretAccessKey))
    else DefaultChain
  }

  function LoadConfig(opts: AwsOptions, sdk: Sdk): (r: Result<AwsOptions, ClientError>)
    ensures r.Ok? <==> sdk.loadConfig(opts).None?
    ensures r.Ok? ==> r.value == opts
    ensures r.Err? ==> r.error == ConfigFailed(sdk.loadConfig(opts).value)
  {
    match sdk.loadConfig(opts)
    case Some(reason) => Err(ConfigFailed(reason))
    case None => Ok(opts)
  }

  /** The flat package's `newBedrockClient`: the profile's region, and its
      inline keys when both are set. */
  function LegacyClient(p: Config.Profile, sdk: Sdk): (r: Result<AwsOptions, ClientError>)
    ensures r.Ok? <==> sdk.loadConfig(AwsOptions(p.awsRegion, InlineCredentials(p))).None?
    ensures r.Ok? ==> r.value.region == p.awsRegion && r.value.credentials == InlineCredentials(p)
  {
    LoadConfig(AwsOptions(p.awsRegion, InlineCredentials(p)), sdk)
  }

  /** The sub-package's `newBedrockClient`: a credentials file, when named,
      takes precedence over the inline keys, and failing to load it fails
      the client. */
  function NewClient(p: Config.Profile, host: Host, sdk: Sdk): (r: Result<AwsOptions, ClientError>)
    ensures p.credentialsFile == "" ==> r == LegacyClient(p, sdk)
    ensures p.credentialsFile != "" && LoadCredentialsFile(p.credentialsFile, host).Err? ==>
              r == Err(CredentialsFileFailed(p.credentialsFile, LoadCredentialsFile(p.credentialsFile, host).error))
    ensures p.credentialsFile != "" && r.Ok? ==>
              && LoadCredentialsFile(p.credentialsFile, host).Ok?
              && r.value == AwsOptions(p.awsRegion, Static(LoadCredentialsFile(p.credentialsFile, host).value))
    ensures r.Ok? ==> r.value.region == p.awsRegion && sdk.loadConfig(r.value).None?
  {
    if p.credentialsFile != "" then
      var creds :- LoadCredentialsFile(p.credentialsFile, host).MapError(e => CredentialsFileFailed(p.credentialsFile, e));
      LoadConfig(AwsOptions(p.awsRegion, Static(creds)), sdk)
    else
      LoadConfig(AwsOptions(p.awsRegion, InlineCredentials(p)), sdk)
  }

  // ---------------------------------------------------------------------
  // Requests

  /** A message of the Nova Messages API: a role and its text blocks. */
  datatype NovaMessage = NovaMessage(role: string, content: seq<string>)

  /** The integer inference parameters (the temperature 0.7 and top-p 0.9
      are floating point and not part of this model). */
  datatype InferenceConfig = InferenceConfig(maxTokens: int, topK: int)

  datatype NovaRequest = NovaRequest(schemaVersion: string, messages: seq<NovaMessage>, system: seq<string>,
                                     inference: InferenceConfig)

  datatype ClaudeRequest = ClaudeRequest(prompt: string, maxTokensToSample: int, topK: int, stopSequences: seq<string>)

  datatype RequestBody = NovaBody(nova: NovaRequest) | ClaudeBody(claude: ClaudeRequest)

  datatype InvokeRequest = InvokeRequest(modelId: string, contentType: string, body: RequestBody)

  datatype Invoked = InvokeError(reason: string) | Invoked(body: Bytes)

  /** An event of the response stream. */
  datatype Event = Chunk(bytes: Bytes) | ErrorEvent(code: string, message: string) | OtherEvent

  datatype StreamInvoked = StreamInvokeError(reason: string) | Streamed(events: seq<Event>, streamError: Option<string>)

  const SchemaVersion := "messages-v1"
  const NovaInference := InferenceConfig(500, 20)
  const JsonContentType := "application/json"

  /** The request body both Nova providers build: one user message with one
      text block, and a system block only for a non-empty system prompt. */
  function NovaRequestFor(systemPrompt: string, userPrompt: string): (r: NovaRequest)
    ensures r.schemaVersion == SchemaVersion && r.inference == NovaInference
  {
    NovaRequest(SchemaVersion, [NovaMessage("user", [userPrompt])],
                if systemPrompt != "" then [systemPrompt] else [], NovaInference)
  }

  /** Reads the two prompts back from a request of that shape. */
  function NovaPromptsOf(r: NovaRequest): Option<(string, string)> {
    if |r.messages| == 1 && r.messages[0].role == "user" && |r.messages[0].content| == 1 then
      if |r.system| == 0 then Some(("", r.messages[0].content[0]))
      else if |r.system| == 1 && r.system[0] != "" then Some((r.system[0], r.messages[0].content[0]))
      else None
    else None
  }

  /** The request body loses neither prompt, an empty system prompt included. */
  lemma NovaRequestRoundTrip(systemPrompt: string, userPrompt: string)
    ensures NovaPromptsOf(NovaRequestFor(systemPrompt, userPrompt)) == Some((systemPrompt, userPrompt))
  {
  }

  function NovaInvocation(p: Config.Profile, systemPrompt: string, userPrompt: string): (r: InvokeRequest)
    ensures r.modelId == p.model && r.contentType == JsonContentType
    ensures r.body == NovaBody(NovaRequestFor(systemPrompt, userPrompt))
  {
    InvokeRequest(p.model, JsonContentType, NovaBody(NovaRequestFor(systemPrompt, userPrompt)))
  }

  // ---------------------------------------------------------------------
  // Nova responses

  /** `novaCombinedAPIResponse`: whether a document decodes into it. */
  predicate NovaResponseOk(j: Json) {
    && StructOk(j)
    && StructOk(Member(j, "output"))
    && NovaMessageOk(Member(Member(j, "output"), "message"))
    && StringOk(Member(j, "stopReason"))
    && UsageOk(Member(j, "usage"))
  }

  predicate NovaMessageOk(message: Json) {
    && StructOk(message)
    && SliceOk(Member(message, "content"), item => StringFieldOk(item, "text"))
    && StringOk(Member(message, "role"))
  }

  predicate UsageOk(usage: Json) {
    && StructOk(usage)
    && IntOk(Member(usage, "inputTokens")) && IntOk(Member(usage, "outputTokens"))
    && IntOk(Member(usage, "totalTokens")) && IntOk(Member(usage, "cacheReadInputTokenCount"))
    && IntOk(Member(usage, "cacheWriteInputTokenCount"))
  }

  /** The texts of `output.message.content`, one per block. */
  function ContentTexts(j: Json): (r: seq<string>)
    ensures var blocks := Elements(Member(Member(Member(j, "output"), "message"), "content"));
            && |r| == |blocks|
            && forall i :: 0 <= i < |r| ==> r[i] == StringOf(Member(blocks[i], "text"))
  {
    var blocks := Elements(Member(Member(Member(j, "output"), "message"), "content"));
    seq(|blocks|, i requires 0 <= i < |blocks| => StringOf(Member(blocks[i], "text")))
  }

  /** `json.Unmarshal` into `novaCombinedAPIResponse`: the content texts, or
      `None` for the error. */
  function DecodeNovaResponse(b: Bytes): (r: Option<seq<string>>)
    ensures r.Some? <==> b.doc.Some? && NovaResponseOk(b.doc.value)
    ensures r.Some? ==> r.value == ContentTexts(b.doc.value)
  {
    match b.doc
    case None => None
    case Some(j) => if NovaResponseOk(j) then Some(ContentTexts(j)) else None
  }

  /** `json.Unmarshal` into `bedrockErrorResponse`: its type and message. */
  function DecodeErrorResponse(b: Bytes): (r: Option<(string, string)>)
    ensures r.Some? <==> b.doc.Some? && StructOk(b.doc.value)
                         && StringOk(Member(b.doc.value, "type")) && StringOk(Member(b.doc.value, "message"))
    ensures r.Some? ==> r.value == (StringOf(Member(b.doc.value, "type")), StringOf(Member(b.doc.value, "message")))
  {
    match b.doc
    case None => None
    case Some(j) =>
      if StructOk(j) && StringOk(Member(j, "type")) && StringOk(Member(j, "message")) then
        Some((StringOf(Member(j, "type")), StringOf(Member(j, "message"))))
      else None
  }

  datatype Error =
    | Client(cause: ClientError)                  // a client failure, returned as is by `Chat`
    | ClientCreationFailed(cause: ClientError)    // "error creating bedrock client: …"
    | InvokeFailed(reason: string)                // "failed to invoke model: …"
    | StreamInvokeFailed(reason: string)          // "failed to invoke model with stream: …"
    | NoContent                                   // "no content found in response"
    | ModelError(kind: string, message: string)   // "model error (%s): %s"
    | ResponseUndecodable(raw: string)            // "failed to unmarshal response body: %s" (the raw body)
    | BodyUndecodable                             // "failed to unmarshal response body: …" (the decoder's error)
    | UnhandledEvent                              // "unhandled stream event type: %T"
    | ChunkUndecodable                            // "failed to unmarshal stream chunk: …"
    | StreamError(code: string, message: string)  // "bedrock stream error: %s - %s"
    | StreamFailed(reason: string)                // "streaming error: …"
    | Canceled                                    // ctx.Err()

  /** The sub-package's reading of an `InvokeModel` body as written: the
      success structure first, then the error structure, then the raw text.
      Every JSON object decodes into the success structure, so the error
      structure is consulted only for an object whose success-shaped members
      have the wrong types. */
  function InterpretAsWritten(b: Bytes): (r: Result<string, Error>)
    ensures DecodeNovaResponse(b).Some? ==>
              r == (if |DecodeNovaResponse(b).value| > 0 then Ok(DecodeNovaResponse(b).value[0]) else Err(NoContent))
    ensures r.Err? && r.error.ModelError? ==> DecodeNovaResponse(b).None?
  {
    match DecodeNovaResponse(b)
    case Some(texts) => if |texts| > 0 then Ok(texts[0]) else Err(NoContent)
    case None =>
      match DecodeErrorResponse(b)
      case Some((kind, message)) => Err(ModelError(kind, message))
      case None => Err(ResponseUndecodable(b.raw))
  }

  /** A body that carries an error report: it decodes into the error
      structure with a non-empty type or message. */
  predicate ReportsError(b: Bytes) {
    DecodeErrorResponse(b).Some? && DecodeErrorResponse(b).value != ("", "")
  }

  /** The reading the error structure is there for: content wins, then an
      error report, then "no content", then the raw text. */
  function Interpret(b: Bytes): (r: Result<string, Error>)
    ensures r.Ok? <==> DecodeNovaResponse(b).Some? && |DecodeNovaResponse(b).value| > 0
    ensures r.Ok? ==> r.value == DecodeNovaResponse(b).value[0]
    ensures !r.Ok? && ReportsError(b) ==>
              r == Err(ModelError(DecodeErrorResponse(b).value.0, DecodeErrorResponse(b).value.1))
    ensures r == Err(NoContent) <==> DecodeNovaResponse(b) == Some([]) && !ReportsError(b)
    ensures b.doc.None? ==> r == Err(ResponseUndecodable(b.raw))
  {
    match DecodeNovaResponse(b)
    case Some(texts) =>
      if |texts| > 0 then Ok(texts[0])
      else if ReportsError(b) then Err(ModelError(DecodeErrorResponse(b).value.0, DecodeErrorResponse(b).value.1))
      else Err(NoContent)
    case None =>
      match DecodeErrorResponse(b)
      case Some((kind, message)) => Err(ModelError(kind, message))
      case None => Err(ResponseUndecodable(b.raw))
  }

  /** As written, an error document (an object with neither `output`,
      `stopReason` nor `usage`) always reads as "no content found", however
      it reports the error. */
  lemma ErrorShapeReadsAsNoContent(raw: string, fields: map<string, Json>)
    requires "output" !in fields && "stopReason" !in fields && "usage" !in fields
    ensures InterpretAsWritten(Bytes(raw, Some(JObj(fields)))) == Err(NoContent)
  {
    assert ContentTexts(JObj(fields)) == [];
  }

  /** The document the source's comment gives as an example of an error body. */
  lemma ValidationExceptionMisread()
    ensures var b := Bytes("", Some(JObj(map["message" := JStr("m"), "type" := JStr("ValidationException")])));
            && InterpretAsWritten(b) == Err(NoContent)
            && Interpret(b) == Err(ModelError("ValidationException", "m"))
  {
    var fields := map["message" := JStr("m"), "type" := JStr("ValidationException")];
    ErrorShapeReadsAsNoContent("", fields);
    ErrorShapeReported("", fields);
  }

  /** The corrected reading reports an error document's type and message. */
  lemma ErrorShapeReported(raw: string, fields: map<string, Json>)
    requires "output" !in fields && "stopReason" !in fields && "usage" !in fields
    requires "type" in fields && fields["type"].JStr? && "message" in fields && fields["message"].JStr?
    requires fields["type"].s != "" || fields["message"].s != ""
    ensures Interpret(Bytes(raw, Some(JObj(fields)))) == Err(ModelError(fields["type"].s, fields["message"].s))
  {
    assert ContentTexts(JObj(fields)) == [];
  }

  /** The two readings differ only where the written one says "no content"
      and the body reports an error. */
  lemma InterpretAgreesElsewhere(b: Bytes)
    ensures Interpret(b) != InterpretAsWritten(b) ==>
              InterpretAsWritten(b) == Err(NoContent) && ReportsError(b)
              && Interpret(b) == Err(ModelError(DecodeErrorResponse(b).value.0, DecodeErrorResponse(b).value.1))
  {
  }

  /** The flat package's reading: no fallback to the error structure. */
  function LegacyInterpret(b: Bytes): (r: Result<string, Error>)
    ensures DecodeNovaResponse(b).None? ==> r == Err(BodyUndecodable)
    ensures r.Ok? <==> DecodeNovaResponse(b).Some? && |DecodeNovaResponse(b).value| > 0
    ensures r.Ok? ==> r.value == DecodeNovaResponse(b).value[0]
    ensures r.Err? && DecodeNovaResponse(b).Some? ==> r == Err(NoContent)
  {
    match DecodeNovaResponse(b)
    case None => Err(BodyUndecodable)
    case Some(texts) => if |texts| > 0 then Ok(texts[0]) else Err(NoContent)
  }

  /** The two revisions, each reading bodies as written, return the same text
      for every body that has content. */
  lemma ContentReadAlike(b: Bytes)
    ensures InterpretAsWritten(b).Ok? <==> LegacyInterpret(b).Ok?
    ensures InterpretAsWritten(b).Ok? ==> InterpretAsWritten(b) == LegacyInterpret(b)
  {
  }

  // ---------------------------------------------------------------------
  // Nova chat

  /** `bedrock.NovaProvider.Chat`: the client, the invocation, and the body
      read as written. */
  function NovaChat(p: Config.Profile, systemPrompt: string, userPrompt: string, host: Host, sdk: Sdk)
    : (r: Result<string, Error>)
    ensures NewClient(p, host, sdk).Err? ==> r == Err(Client(NewClient(p, host, sdk).error))
    ensures NewClient(p, host, sdk).Ok? ==>
              var out := sdk.invoke(NewClient(p, host, sdk).value, NovaInvocation(p, systemPrompt, userPrompt));
              && (out.InvokeError? ==> r == Err(InvokeFailed(out.reason)))
              && (out.Invoked? ==> r == InterpretAsWritten(out.body))
  {
    var opts :- NewClient(p, host, sdk).MapError(e => Client(e));
    match sdk.invoke(opts, NovaInvocation(p, systemPrompt, userPrompt))
    case InvokeError(reason) => Err(InvokeFailed(reason))
    case Invoked(body) => InterpretAsWritten(body)
  }

  /** `NovaChat` with the corrected body reading: it succeeds exactly when
      `NovaChat` does, with the same text, and differs only by reporting a
      model error where `NovaChat` says "no content". */
  function NovaChatCorrected(p: Config.Profile, systemPrompt: string, userPrompt: string, host: Host, sdk: Sdk)
    : (r: Result<string, Error>)
    ensures r.Ok? <==> NovaChat(p, systemPrompt, userPrompt, host, sdk).Ok?
    ensures r != NovaChat(p, systemPrompt, userPrompt, host, sdk) ==>
              NovaChat(p, systemPrompt, userPrompt, host, sdk) == Err(NoContent) && r.Err? && r.error.ModelError?
    ensures NewClient(p, host, sdk).Ok? ==>
              var out := sdk.invoke(NewClient(p, host, sdk).value, NovaInvocation(p, systemPrompt, userPrompt));
              out.Invoked? ==> r == Interpret(out.body)
  {
    var opts :- NewClient(p, host, sdk).MapError(e => Client(e));
    match sdk.invoke(opts, NovaInvocation(p, systemPrompt, userPrompt))
    case InvokeError(reason) => Err(InvokeFailed(reason))
    case Invoked(body) => InterpretAgreesElsewhere(body); Interpret(body)
  }

  /** `llm.NovaBedrockProvider.Chat`. */
  function LegacyNovaChat(p: Config.Profile, systemPrompt: string, userPrompt: string, sdk: Sdk)
    : (r: Result<string, Error>)
    ensures LegacyClient(p, sdk).Err? ==> r == Err(Client(LegacyClient(p, sdk).error))
    ensures LegacyClient(p, sdk).Ok? ==>
              var out := sdk.invoke(LegacyClient(p, sdk).value, NovaInvocation(p, systemPrompt, userPrompt));
              && (out.InvokeError? ==> r == Err(InvokeFailed(out.reason)))
              && (out.Invoked? ==> r == LegacyInterpret(out.body))
  {
    var opts :- LegacyClient(p, sdk).MapError(e => Client(e));
    match sdk.invoke(opts, NovaInvocation(p, systemPrompt, userPrompt))
    case InvokeError(reason) => Err(InvokeFailed(reason))
    case Invoked(body) => LegacyInterpret(body)
  }

  /** Without a credentials file the two Nova providers send the same request
      with the same client, and return the same text whenever either finds
      content. */
  lemma NovaChatRevisionsAgree(p: Config.Profile, systemPrompt: string, userPrompt: string, host: Host, sdk: Sdk)
    requires p.credentialsFile == ""
    ensures NovaChat(p, systemPrompt, userPrompt, host, sdk).Ok? <==> LegacyNovaChat(p, systemPrompt, userPrompt, sdk).Ok?
    ensures NovaChat(p, systemPrompt, userPrompt, host, sdk).Ok? ==>
              NovaChat(p, systemPrompt, userPrompt, host, sdk) == LegacyNovaChat(p, systemPrompt, userPrompt, sdk)
  {
    var c := LegacyClient(p, sdk);
    if c.Ok? {
      var out := sdk.invoke(c.value, NovaInvocation(p, systemPrompt, userPrompt));
      if out.Invoked? {
        ContentReadAlike(out.body);
      }
    }
  }

  // ---------------------------------------------------------------------
  // Nova streams

  /** `json.Unmarshal` into `novaMessagesAPIStreamChunk`: the text of
      `contentBlockDelta.delta`, or `None` for the error. */
  function DecodeNovaChunk(b: Bytes): (r: Option<string>)
    ensures r.Some? <==> b.doc.Some? && StructOk(b.doc.value) && StructOk(Member(b.doc.value, "contentBlockDelta"))
                         && StringFieldOk(Member(Member(b.doc.value, "contentBlockDelta"), "delta"), "text")
    ensures r.Some? && "contentBlockDelta" !in Members(b.doc.value) ==> r.value == ""
  {
    match b.doc
    case None => None
    case Some(j) =>
      var delta := Member(Member(j, "contentBlockDelta"), "delta");
      if StructOk(j) && StructOk(Member(j, "contentBlockDelta")) && StringFieldOk(delta, "text") then
        Some(StringOf(Member(delta, "text")))
      else None
  }

  /** One event of the sub-package's loop: a chunk that does not decode is
      skipped, every other chunk is sent, and other events are ignored. */
  function NovaClassify(e: Event): (s: Step<Error>)
    ensures !s.Fail?
    ensures s.Send? <==> e.Chunk? && DecodeNovaChunk(e.bytes).Some?
    ensures s.Send? ==> s.chunk == DecodeNovaChunk(e.bytes).value
  {
    match e
    case Chunk(bytes) =>
      (match DecodeNovaChunk(bytes)
       case None => Skip
       case Some(text) => Send(text))
    case _ => Skip
  }

  /** One event of the flat package's loop: the same for chunks, but any
      other event ends the stream with an error. */
  function LegacyNovaClassify(e: Event): (s: Step<Error>)
    ensures s.Fail? <==> !e.Chunk?
    ensures s.Fail? ==> s.error == UnhandledEvent
    ensures e.Chunk? ==> s == NovaClassify(e)
  {
    match e
    case Chunk(_) => NovaClassify(e)
    case _ => Fail(UnhandledEvent)
  }

  /** `bedrock.NovaProvider.ChatStream`: the context is checked before each
      event, and the stream's own error is reported after the loop. */
  function NovaChatStream(p: Config.Profile, systemPrompt: string, userPrompt: string, host: Host, sdk: Sdk, ctx: Ctx)
    : (r: Outcome<Error>)
    ensures NewClient(p, host, sdk).Err? ==> r == Outcome([], Some(ClientCreationFailed(NewClient(p, host, sdk).error)))
    ensures NewClient(p, host, sdk).Ok? ==>
              var out := sdk.invokeStream(NewClient(p, host, sdk).value, NovaInvocation(p, systemPrompt, userPrompt));
              && (out.StreamInvokeError? ==> r == Outcome([], Some(StreamInvokeFailed(out.reason))))
              && (out.Streamed? ==>
                    r == AfterLoop(RelayChecked(Classified(out.events, NovaClassify), ctx, Canceled),
                                   if out.streamError.Some? then Some(StreamFailed(out.streamError.value)) else None))
  {
    match NewClient(p, host, sdk)
    case Err(e) => Outcome([], Some(ClientCreationFailed(e)))
    case Ok(opts) =>
      match sdk.invokeStream(opts, NovaInvocation(p, systemPrompt, userPrompt))
      case StreamInvokeError(reason) => Outcome([], Some(StreamInvokeFailed(reason)))
      case Streamed(events, streamError) =>
        AfterLoop(RelayChecked(Classified(events, NovaClassify), ctx, Canceled),
                  if streamError.Some? then Some(StreamFailed(streamError.value)) else None)
  }

  /** `llm.NovaBedrockProvider.ChatStream`: no check of the stream's error. */
  function LegacyNovaChatStream(p: Config.Profile, systemPrompt: string, userPrompt: string, sdk: Sdk, ctx: Ctx)
    : (r: Outcome<Error>)
    ensures LegacyClient(p, sdk).Err? ==> r == Outcome([], Some(ClientCreationFailed(LegacyClient(p, sdk).error)))
    ensures LegacyClient(p, sdk).Ok? ==>
              var out := sdk.invokeStream(LegacyClient(p, sdk).value, NovaInvocation(p, systemPrompt, userPrompt));
              && (out.StreamInvokeError? ==> r == Outcome([], Some(StreamInvokeFailed(out.reason))))
              && (out.Streamed? ==> r == RelayChecked(Classified(out.events, LegacyNovaClassify), ctx, Canceled))
  {
    match LegacyClient(p, sdk)
    case Err(e) => Outcome([], Some(ClientCreationFailed(e)))
    case Ok(opts) =>
      match sdk.invokeStream(opts, NovaInvocation(p, systemPrompt, userPrompt))
      case StreamInvokeError(reason) => Outcome([], Some(StreamInvokeFailed(reason)))
      case Streamed(events, _) => RelayChecked(Classified(events, LegacyNovaClassify), ctx, Canceled)
  }

  /** The text of every chunk that decodes, in order. */
  function DeltaTexts(events: seq<Event>): seq<string>
    decreases |events|
  {
    if |events| == 0 then []
    else if events[0].Chunk? && DecodeNovaChunk(events[0].bytes).Some? then
      [DecodeNovaChunk(events[0].bytes).value] + DeltaTexts(events[1..])
    else DeltaTexts(events[1..])
  }

  /** The events before the first one that is not a chunk. */
  function LeadingChunks(events: seq<Event>): (r: seq<Event>)
    ensures |r| <= |events| && r == events[..|r|]
    ensures forall i :: 0 <= i < |r| ==> r[i].Chunk?
    ensures |r| < |events| ==> !events[|r|].Chunk?
    decreases |events|
  {
    if |events| == 0 || !events[0].Chunk? then [] else [events[0]] + LeadingChunks(events[1..])
  }

  /** Uncancelled, the sub-package's loop sends the text of every decodable
      chunk and never fails by itself. */
  lemma {:induction false} NovaStreamReadsChunks(events: seq<Event>)
    ensures RelayChecked(Classified(events, NovaClassify), Background, Canceled) == Outcome(DeltaTexts(events), None)
    decreases |events|
  {
    if |events| > 0 {
      assert Classified(events, NovaClassify)[1..] == Classified(events[1..], NovaClassify);
      NovaStreamReadsChunks(events[1..]);
    }
  }

  /** Uncancelled, the flat package's loop sends the texts of the chunks
      before the first other event, and fails at that event. */
  lemma {:induction false} LegacyNovaStreamStopsAtOtherEvents(events: seq<Event>)
    ensures var o := RelayChecked(Classified(events, LegacyNovaClassify), Background, Canceled);
            && o.sent == DeltaTexts(LeadingChunks(events))
            && (o.error.None? <==> LeadingChunks(events) == events)
            && (o.error.Some? ==> o.error.value == UnhandledEvent)
    decreases |events|
  {
    if |events| > 0 {
      assert Classified(events, LegacyNovaClassify)[1..] == Classified(events[1..], LegacyNovaClassify);
      if events[0].Chunk? {
        LegacyNovaStreamStopsAtOtherEvents(events[1..]);
        var lc := LeadingChunks(events);
        assert lc[0] == events[0] && lc[1..] == LeadingChunks(events[1..]);
        assert (lc == events) <==> (lc[1..] == events[1..]);
      }
    }
  }

  /** The two Nova loops agree on a stream of chunks alone. */
  lemma NovaStreamRevisionsAgree(events: seq<Event>, ctx: Ctx)
    requires forall i :: 0 <= i < |events| ==> events[i].Chunk?
    ensures RelayChecked(Classified(events, LegacyNovaClassify), ctx, Canceled) == RelayChecked(Classified(events, NovaClassify), ctx, Canceled)
  {
    assert Classified(events, LegacyNovaClassify) == Classified(events, NovaClassify);
  }

  // ---------------------------------------------------------------------
  // Claude (`llm.BedrockProvider`)

  const HumanTurn := "\n\nHuman: "
  const AssistantTurn := "\n\nAssistant:"
  const ClaudeStopSequence := "\n\nHuman:"

  /** The text-completion prompt: the system prompt, when given, is the first
      line of the human turn. */
  function ClaudePrompt(systemPrompt: string, userPrompt: string): (r: string)
    ensures GoStrings.HasPrefix(r, HumanTurn) && GoStrings.HasSuffix(r, AssistantTurn)
    ensures |r| >= |HumanTurn| + |AssistantTurn|
  {
    HumanTurn + (if systemPrompt == "" then userPrompt else systemPrompt + "\n" + userPrompt) + AssistantTurn
  }

  /** The human turn of a prompt of that shape. */
  function HumanText(prompt: string): string
    requires |prompt| >= |HumanTurn| + |AssistantTurn|
  {
    prompt[|HumanTurn|..|prompt| - |AssistantTurn|]
  }

  /** The human turn carries the user prompt, after the system prompt and a
      newline when there is one. */
  lemma ClaudePromptCarriesPrompts(systemPrompt: string, userPrompt: string)
    ensures HumanText(ClaudePrompt(systemPrompt, userPrompt))
            == (if systemPrompt == "" then userPrompt else systemPrompt + "\n" + userPrompt)
  {
    var middle := if systemPrompt == "" then userPrompt else systemPrompt + "\n" + userPrompt;
    assert ClaudePrompt(systemPrompt, userPrompt) == HumanTurn + middle + AssistantTurn;
  }

  /** So a system prompt cannot be told apart from a first user line. */
  lemma SystemPromptIsFirstLine(systemPrompt: string, userPrompt: string)
    requires systemPrompt != ""
    ensures ClaudePrompt(systemPrompt, userPrompt) == ClaudePrompt("", systemPrompt + "\n" + userPrompt)
  {
  }

  function ClaudeInvocation(p: Config.Profile, systemPrompt: string, userPrompt: string): (r: InvokeRequest)
    ensures r.modelId == p.model && r.contentType == JsonContentType
    ensures r.body.ClaudeBody? && r.body.claude.prompt == ClaudePrompt(systemPrompt, userPrompt)
    ensures r.body.claude.maxTokensToSample == 2000 && r.body.claude.topK == 250
    ensures r.body.claude.stopSequences == [ClaudeStopSequence]
  {
    InvokeRequest(p.model, JsonContentType,
                  ClaudeBody(ClaudeRequest(ClaudePrompt(systemPrompt, userPrompt), 2000, 250, [ClaudeStopSequence])))
  }

  /** `llm.BedrockProvider.Chat`: the `completion` of the body, empty
      included. */
  function ClaudeChat(p: Config.Profile, systemPrompt: string, userPrompt: string, sdk: Sdk)
    : (r: Result<string, Error>)
    ensures LegacyClient(p, sdk).Err? ==> r == Err(Client(LegacyClient(p, sdk).error))
    ensures LegacyClient(p, sdk).Ok? ==>
              var out := sdk.invoke(LegacyClient(p, sdk).value, ClaudeInvocation(p, systemPrompt, userPrompt));
              && (out.InvokeError? ==> r == Err(InvokeFailed(out.reason)))
              && (out.Invoked? ==>
                    && (r.Ok? <==> DecodeStringField(out.body, "completion").Some?)
                    && (r.Ok? ==> r.value == DecodeStringField(out.body, "completion").value)
                    && (r.Err? ==> r.error == BodyUndecodable))
  {
    var opts :- LegacyClient(p, sdk).MapError(e => Client(e));
    match sdk.invoke(opts, ClaudeInvocation(p, systemPrompt, userPrompt))
    case InvokeError(reason) => Err(InvokeFailed(reason))
    case Invoked(body) =>
      match DecodeStringField(body, "completion")
      case None => Err(BodyUndecodable)
      case Some(completion) => Ok(completion)
  }

  /** One event of the Claude loop: a chunk that does not decode is fatal,
      an error event ends the stream with its code and message, and other
      events are ignored. */
  function ClaudeClassify(e: Event): (s: Step<Error>)
    ensures s.Send? <==> e.Chunk? && DecodeStringField(e.bytes, "bytes").Some?
    ensures s.Send? ==> s.chunk == DecodeStringField(e.bytes, "bytes").value
    ensures s.Skip? <==> e.OtherEvent?
    ensures e.Chunk? && s.Fail? ==> s.error == ChunkUndecodable
    ensures e.ErrorEvent? ==> s == Fail(StreamError(e.code, e.message))
  {
    match e
    case Chunk(bytes) =>
      (match DecodeStringField(bytes, "bytes")
       case None => Fail(ChunkUndecodable)
       case Some(text) => Send(text))
    case ErrorEvent(code, message) => Fail(StreamError(code, message))
    case OtherEvent => Skip
  }

  /** `llm.BedrockProvider.ChatStream`. */
  function ClaudeChatStream(p: Config.Profile, systemPrompt: string, userPrompt: string, sdk: Sdk, ctx: Ctx)
    : (r: Outcome<Error>)
    ensures LegacyClient(p, sdk).Err? ==> r == Outcome([], Some(ClientCreationFailed(LegacyClient(p, sdk).error)))
    ensures LegacyClient(p, sdk).Ok? ==>
              var out := sdk.invokeStream(LegacyClient(p, sdk).value, ClaudeInvocation(p, systemPrompt, userPrompt));
              && (out.StreamInvokeError? ==> r == Outcome([], Some(StreamInvokeFailed(out.reason))))
              && (out.Streamed? ==> r == RelayChecked(Classified(out.events, ClaudeClassify), ctx, Canceled))
  {
    match LegacyClient(p, sdk)
    case Err(e) => Outcome([], Some(ClientCreationFailed(e)))
    case Ok(opts) =>
      match sdk.invokeStream(opts, ClaudeInvocation(p, systemPrompt, userPrompt))
      case StreamInvokeError(reason) => Outcome([], Some(StreamInvokeFailed(reason)))
      case Streamed(events, _) => RelayChecked(Classified(events, ClaudeClassify), ctx, Canceled)
  }

  /** The completions of the chunks before the first event that fails. */
  function Completions(events: seq<Event>): seq<string>
    decreases |events|
  {
    if |events| == 0 then []
    else match ClaudeClassify(events[0])
      case Skip => Completions(events[1..])
      case Fail(_) => []
      case Send(text) => [text] + Completions(events[1..])
  }

  /** The first event that fails the Claude loop, as its error. */
  function FirstClaudeFailure(events: seq<Event>): Option<Error>
    decreases |events|
  {
    if |events| == 0 then None
    else if events[0].ErrorEvent? then Some(StreamError(events[0].code, events[0].message))
    else if events[0].Chunk? && DecodeStringField(events[0].bytes, "bytes").None? then Some(ChunkUndecodable)
    else FirstClaudeFailure(events[1..])
  }

  /** Uncancelled, the Claude loop sends the completions and fails on the
      first error event or undecodable chunk. */
  lemma {:induction false} ClaudeStreamReadsChunks(events: seq<Event>)
    ensures RelayChecked(Classified(events, ClaudeClassify), Background, Canceled)
            == Outcome(Completions(events), FirstClaudeFailure(events))
    decreases |events|
  {
    if |events| > 0 {
      assert Classified(events, ClaudeClassify)[1..] == Classified(events[1..], ClaudeClassify);
      ClaudeStreamReadsChunks(events[1..]);
    }
  }
}
