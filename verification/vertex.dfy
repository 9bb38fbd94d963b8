/** The Vertex AI providers of the flat package `llm`: `VertexAIProvider`
    (`vertexai.go`) and `VertexAI2Provider` (`vertexai2.go`). Both set up a
    client the same way and read responses the same way; they differ in how
    the system prompt reaches the model. The Google SDK (token provider,
    client, chat sessions) is an input: what it answers to each request. */
module Vertex {
  import opened Wrappers
  import opened Llm
  import Config
  import FilePaths
  import GoStrings

  // ---------------------------------------------------------------------
  // Client set-up

  /** The service-account fields the provider reads from a credentials file. */
  datatype ServiceAccount = ServiceAccount(clientEmail: string, privateKey: string, tokenUri: string)

  /** What the client is configured with: the project, the location, and the
      service account when a credentials file is named (otherwise the
      SDK's default credentials). */
  datatype ClientConfig = ClientConfig(project: string, location: string, account: Option<ServiceAccount>)

  datatype ClientError =
    | ProjectOrLocationMissing                  // "project_id and location must be set …"
    | PathNotExpanded(cause: FilePaths.PathError)  // "expanding path for credentials_file: …"
    | CredentialsUnreadable(path: string)       // "failed to read credentials file: …"
    | CredentialsEmpty(path: string)            // "credentials file is empty: %s"
    | ServiceAccountInvalid(path: string)       // "invalid service account JSON: …"
    | TokenProviderFailed(reason: string)       // "failed to create token provider: …"
    | ClientFailed(reason: string)              // "error creating new genai client: …"

  /** The SDK calls of the set-up: the token provider refuses an account
      with `Some(reason)`, the client constructor a configuration. */
  datatype Sdk = Sdk(tokenProvider: ServiceAccount -> Option<string>, newClient: ClientConfig -> Option<string>)

  /** The service account read from the credentials file. */
  function LoadServiceAccount(path: string, host: Host): (r: Result<ServiceAccount, ClientError>)
    ensures r.Ok? ==> && FilePaths.ExpandHome(path, host.home).Ok?
                      && var expanded := FilePaths.ExpandHome(path, host.home).value;
                         expanded in host.files && host.files[expanded].Fields?
                         && r.value.clientEmail == host.files[expanded].Field("client_email")
                         && r.value.privateKey == host.files[expanded].Field("private_key")
                         && r.value.tokenUri == host.files[expanded].Field("token_uri")
    ensures FilePaths.ExpandHome(path, host.home).Err? ==> r == Err(PathNotExpanded(FilePaths.ExpandHome(path, host.home).error))
    ensures FilePaths.ExpandHome(path, host.home).Ok? ==>
              var expanded := FilePaths.ExpandHome(path, host.home).value;
              && (expanded !in host.files ==> r == Err(CredentialsUnreadable(expanded)))
              && (expanded in host.files && host.files[expanded].Empty? ==> r == Err(CredentialsEmpty(expanded)))
              && (expanded in host.files && host.files[expanded].Malformed? ==> r == Err(ServiceAccountInvalid(expanded)))
  {
    var expanded :- FilePaths.ExpandHome(path, host.home).MapError(e => PathNotExpanded(e));
    if expanded !in host.files then Err(CredentialsUnreadable(expanded))
    else match host.files[expanded]
      case Empty => Err(CredentialsEmpty(expanded))
      case Malformed => Err(ServiceAccountInvalid(expanded))
      case Fields(_) =>
        var f := host.files[expanded];
        Ok(ServiceAccount(f.Field("client_email"), f.Field("private_key"), f.Field("token_uri")))
  }

  /** `newVertexAIClient` (identical in both files). */
  function NewClient(p: Config.Profile, host: Host, sdk: Sdk): (r: Result<ClientConfig, ClientError>)
    ensures p.projectId == "" || p.location == "" ==> r == Err(ProjectOrLocationMissing)
    ensures r.Ok? ==> && r.value.project == p.projectId != "" && r.value.location == p.location != ""
                      && (r.value.account.None? <==> p.credentialsFile == "")
                      && sdk.newClient(r.value).None?
    ensures r.Ok? && p.credentialsFile != "" ==>
              && LoadServiceAccount(p.credentialsFile, host) == Ok(r.value.account.value)
              && sdk.tokenProvider(r.value.account.value).None?
  {
    if p.projectId == "" || p.location == "" then Err(ProjectOrLocationMissing)
    else
      var account :- if p.credentialsFile == "" then Ok(None)
                     else
                       var sa :- LoadServiceAccount(p.credentialsFile, host);
                       match sdk.tokenProvider(sa)
                       case Some(reason) => Err(TokenProviderFailed(reason))
                       case None => Ok(Some(sa));
      var config := ClientConfig(p.projectId, p.location, account);
      match sdk.newClient(config)
      case Some(reason) => Err(ClientFailed(reason))
      case None => Ok(config)
  }

  // ---------------------------------------------------------------------
  // Responses

  /** A response candidate: the texts of its content's parts, or `None` for a
      candidate without content. */
  datatype Candidate = Candidate(parts: Option<seq<string>>)

  /** A `GenerateContentResponse`; `NoResponse` is a nil response. */
  datatype Response = NoResponse | Response(candidates: seq<Candidate>)

  function PartsText(parts: seq<string>): string
    decreases |parts|
  {
    if |parts| == 0 then "" else parts[0] + PartsText(parts[1..])
  }

  function CandidatesText(cands: seq<Candidate>): string
    decreases |cands|
  {
    if |cands| == 0 then ""
    else (if cands[0].parts.Some? then PartsText(cands[0].parts.value) else "") + CandidatesText(cands[1..])
  }

  /** `extractTextFromResponse`: every part of every candidate, in order. */
  function ExtractText(resp: Response): (r: string)
    ensures resp.NoResponse? || resp.candidates == [] ==> r == ""
  {
    if resp.NoResponse? then "" else CandidatesText(resp.candidates)
  }

  /** Text extraction distributes over the candidate list. */
  lemma {:induction false} ExtractTextAppend(c1: seq<Candidate>, c2: seq<Candidate>)
    ensures ExtractText(Response(c1 + c2)) == ExtractText(Response(c1)) + ExtractText(Response(c2))
    decreases |c1|
  {
    if |c1| == 0 {
      assert c1 + c2 == c2;
    } else {
      assert (c1 + c2)[1..] == c1[1..] + c2;
      assert (c1 + c2)[0] == c1[0];
      ExtractTextAppend(c1[1..], c2);
    }
  }

  /** And over the part list of a candidate. */
  lemma {:induction false} PartsTextAppend(p1: seq<string>, p2: seq<string>)
    ensures PartsText(p1 + p2) == PartsText(p1) + PartsText(p2)
    decreases |p1|
  {
    if |p1| == 0 {
      assert p1 + p2 == p2;
    } else {
      assert (p1 + p2)[1..] == p1[1..] + p2;
      assert (p1 + p2)[0] == p1[0];
      PartsTextAppend(p1[1..], p2);
    }
  }

  /** A single candidate with a single part yields that part's text. */
  lemma SingleTextResponse(text: string)
    ensures ExtractText(Response([Candidate(Some([text]))])) == text
  {
    assert [text][1..] == [];
    assert PartsText([text]) == text;
    var c := [Candidate(Some([text]))];
    assert c[1..] == [];
    assert CandidatesText(c) == text + "";
  }

  // ---------------------------------------------------------------------
  // Conversations

  /** A prior turn of the chat history: `user` or `model`, with one text part. */
  datatype Turn = Turn(role: string, text: string)

  /** What a chat session is asked: the model, the history it was created
      with, and the messages sent on it so far (the last one is the one being
      answered). */
  datatype Conversation = Conversation(model: string, history: seq<Turn>, sent: seq<string>)

  /** The SDK's answer to one message: a failure or a response. */
  datatype Reply = ReplyFailed(reason: string) | Replied(response: Response)

  /** One element of a streamed reply. */
  datatype StreamItem = ItemFailed(reason: string) | Item(response: Response)

  /** The chat service: whether creating a session fails, how it answers a
      message, and what it streams for one. */
  datatype ChatService = ChatService(
    create: (string, seq<Turn>) -> Option<string>,
    reply: Conversation -> Reply,
    stream: Conversation -> seq<StreamItem>)

  datatype Error =
    | Client(cause: ClientError)
    | CreateFailed(reason: string)              // "error creating chat: …"
    | CreateWithHistoryFailed(reason: string)   // "error creating chat with history: …"
    | SystemPromptFailed(reason: string)        // "error sending system prompt to vertexai: …"
    | SendFailed(reason: string)                // "error sending message to vertexai: …"
    | StreamFailed(reason: string)              // "error reading stream from vertexai: …"
    | Canceled                                  // ctx.Err()

  /** The priming history of `vertexai2.go`: the system prompt as a user turn
      acknowledged by the model, or nothing. */
  function PrimedHistory(systemPrompt: string): (r: seq<Turn>)
    ensures systemPrompt == "" <==> r == []
    ensures systemPrompt != "" ==> r == [Turn("user", systemPrompt), Turn("model", "OK.")]
  {
    if systemPrompt == "" then [] else [Turn("user", systemPrompt), Turn("model", "OK.")]
  }

  /** The conversation the user prompt is answered in, by revision: after a
      separate system message on a fresh session (`vertexai.go`), or on a
      session primed with the system prompt (`vertexai2.go`). */
  function UserConversation(primed: bool, model: string, systemPrompt: string, userPrompt: string): (r: Conversation)
    ensures r.model == model && |r.sent| > 0 && r.sent[|r.sent| - 1] == userPrompt
    ensures !primed ==> r.history == [] && r.sent == (if systemPrompt == "" then [] else [systemPrompt]) + [userPrompt]
    ensures primed ==> r.history == PrimedHistory(systemPrompt) && r.sent == [userPrompt]
  {
    if primed then Conversation(model, PrimedHistory(systemPrompt), [userPrompt])
    else Conversation(model, [], (if systemPrompt == "" then [] else [systemPrompt]) + [userPrompt])
  }

  /** Session creation and, for `vertexai.go`, the system message: what must
      succeed before the user prompt is sent. */
  function Prepare(primed: bool, p: Config.Profile, systemPrompt: string, host: Host, sdk: Sdk, service: ChatService)
    : (r: Result<(), Error>)
    ensures NewClient(p, host, sdk).Err? ==> r == Err(Client(NewClient(p, host, sdk).error))
    ensures r.Ok? <==> && NewClient(p, host, sdk).Ok?
                       && service.create(p.model, if primed then PrimedHistory(systemPrompt) else []).None?
                       && (!primed && systemPrompt != "" ==> service.reply(Conversation(p.model, [], [systemPrompt])).Replied?)
  {
    var _ :- NewClient(p, host, sdk).MapError(e => Client(e));
    if primed then
      match service.create(p.model, PrimedHistory(systemPrompt))
      case Some(reason) => Err(CreateWithHistoryFailed(reason))
      case None => Ok(())
    else
      match service.create(p.model, [])
      case Some(reason) => Err(CreateFailed(reason))
      case None =>
        if systemPrompt == "" then Ok(())
        else match service.reply(Conversation(p.model, [], [systemPrompt]))
          case ReplyFailed(reason) => Err(SystemPromptFailed(reason))
          case Replied(_) => Ok(())
  }

  /** `Chat` of `vertexai.go` (`primed` false) and `vertexai2.go` (`primed` true). */
  function Chat(primed: bool, p: Config.Profile, systemPrompt: string, userPrompt: string,
                host: Host, sdk: Sdk, service: ChatService): (r: Result<string, Error>)
    ensures Prepare(primed, p, systemPrompt, host, sdk, service).Err? ==>
              r == Err(Prepare(primed, p, systemPrompt, host, sdk, service).error)
    ensures Prepare(primed, p, systemPrompt, host, sdk, service).Ok? ==>
              match service.reply(UserConversation(primed, p.model, systemPrompt, userPrompt))
              case ReplyFailed(reason) => r == Err(SendFailed(reason))
              case Replied(resp) => r == Ok(ExtractText(resp))
  {
    var _ :- Prepare(primed, p, systemPrompt, host, sdk, service);
    match service.reply(UserConversation(primed, p.model, systemPrompt, userPrompt))
    case ReplyFailed(reason) => Err(SendFailed(reason))
    case Replied(resp) => Ok(ExtractText(resp))
  }

  /** One element of the stream loop: a failure ends it, an element without
      text is skipped, any other is forwarded as its text. */
  function Classify(item: StreamItem): (s: Step<Error>)
    ensures item.ItemFailed? <==> s.Fail?
    ensures s.Fail? ==> s.error == StreamFailed(item.reason)
    ensures item.Item? ==> (s == Skip <==> ExtractText(item.response) == "")
    ensures s.Send? ==> s.chunk == ExtractText(item.response) && s.chunk != ""
  {
    match item
    case ItemFailed(reason) => Fail(StreamFailed(reason))
    case Item(resp) => if ExtractText(resp) == "" then Skip else Send(ExtractText(resp))
  }

  /** `ChatStream` of either revision. */
  function ChatStream(primed: bool, p: Config.Profile, systemPrompt: string, userPrompt: string,
                      host: Host, sdk: Sdk, service: ChatService, ctx: Ctx): (r: Outcome<Error>)
    ensures Prepare(primed, p, systemPrompt, host, sdk, service).Err? ==>
              r == Outcome([], Some(Prepare(primed, p, systemPrompt, host, sdk, service).error))
    ensures Prepare(primed, p, systemPrompt, host, sdk, service).Ok? ==>
              r == Relay(Classified(service.stream(UserConversation(primed, p.model, systemPrompt, userPrompt)), Classify),
                         ctx, Canceled)
  {
    match Prepare(primed, p, systemPrompt, host, sdk, service)
    case Err(e) => Outcome([], Some(e))
    case Ok(_) =>
      Relay(Classified(service.stream(UserConversation(primed, p.model, systemPrompt, userPrompt)), Classify), ctx, Canceled)
  }

  // Reference reading of a stream.

  /** The concatenated text of the elements before the first failure. */
  function StreamedText(items: seq<StreamItem>): string
    decreases |items|
  {
    if |items| == 0 || items[0].ItemFailed? then "" else ExtractText(items[0].response) + StreamedText(items[1..])
  }

  function Concat(chunks: seq<string>): string
    decreases |chunks|
  {
    if |chunks| == 0 then "" else chunks[0] + Concat(chunks[1..])
  }

  /** Skipping the empty elements loses no text: an uncancelled stream's
      chunks are all non-empty and add up to the text of every element before
      the first failure. */
  lemma {:induction false} StreamLosesNoText(items: seq<StreamItem>)
    ensures var o := Relay(Classified(items, Classify), Background, Canceled);
            && Concat(o.sent) == StreamedText(items)
            && (forall i :: 0 <= i < |o.sent| ==> o.sent[i] != "")
    decreases |items|
  {
    if |items| > 0 && items[0].Item? {
      assert Classified(items, Classify)[1..] == Classified(items[1..], Classify);
      StreamLosesNoText(items[1..]);
      var o := Relay(Classified(items, Classify), Background, Canceled);
      var o1 := Relay(Classified(items[1..], Classify), Background, Canceled);
      if ExtractText(items[0].response) != "" {
        assert o.sent == [ExtractText(items[0].response)] + o1.sent;
        assert o.sent[1..] == o1.sent;
      }
    }
  }

  /** The two revisions agree when there is no system prompt: the user
      prompt is asked on a fresh session either way. */
  lemma RevisionsAgreeWithoutSystemPrompt(p: Config.Profile, userPrompt: string, host: Host, sdk: Sdk,
                                          service: ChatService)
    ensures UserConversation(false, p.model, "", userPrompt) == UserConversation(true, p.model, "", userPrompt)
    ensures Chat(false, p, "", userPrompt, host, sdk, service).Ok? <==> Chat(true, p, "", userPrompt, host, sdk, service).Ok?
    ensures Chat(false, p, "", userPrompt, host, sdk, service).Ok? ==>
              Chat(false, p, "", userPrompt, host, sdk, service) == Chat(true, p, "", userPrompt, host, sdk, service)
  {
  }

  /** With a system prompt, `vertexai.go` asks the model twice and the user
      prompt follows the system prompt as a second message; `vertexai2.go`
      asks once, after a history in which the model has answered "OK.". */
  lemma SystemPromptPlacement(model: string, systemPrompt: string, userPrompt: string)
    requires systemPrompt != ""
    ensures UserConversation(false, model, systemPrompt, userPrompt) == Conversation(model, [], [systemPrompt, userPrompt])
    ensures UserConversation(true, model, systemPrompt, userPrompt) ==
              Conversation(model, [Turn("user", systemPrompt), Turn("model", "OK.")], [userPrompt])
  {
  }
}
