/** Which implementation of the `llm.Provider` interface a profile selects.
    Three dispatchers exist side by side: the explicit registry `GetProvider`
    (sub-packages `ollama`, `openai`, `openai2`, `bedrock`, `vertexai`,
    `vertexai2`), and the older `switch` statements of the `prompt` and `ask`
    commands, which pick the flat package-`llm` types and fall back to the
    mock provider. */
module Registry {
  import opened Wrappers
  import opened Config
  import GoStrings

  /** An implementation of `llm.Provider`, together with the profile it was
      built from. The mock providers keep no profile. */
  datatype Provider =
    // sub-package implementations
    | Ollama(profile: Profile)         // ollama.Provider
    | OpenAI(profile: Profile)         // openai.Provider
    | OpenAI2(profile: Profile)        // openai2.Provider
    | Nova(profile: Profile)           // bedrock.NovaProvider
    | VertexAI(profile: Profile)       // vertexai.Provider
    | VertexAI2(profile: Profile)      // vertexai2.Provider
    | Mock                             // mock.Provider
    // flat package-llm implementations
    | LegacyOllama(profile: Profile)   // llm.OllamaProvider
    | LegacyOpenAI(profile: Profile)   // llm.OpenAIProvider
    | LegacyNova(profile: Profile)     // llm.NovaBedrockProvider
    | LegacyClaude(profile: Profile)   // llm.BedrockProvider
    | LegacyMock                       // llm.MockProvider
  {
    predicate IsMock() {
      Mock? || LegacyMock?
    }
  }

  /** The prefix of the Bedrock model identifiers served by the Nova provider. */
  const NovaPrefix := "amazon.nova"

  /** The names the registry knows. */
  const RegisteredNames: set<string> := {"ollama", "openai", "openai2", "bedrock", "vertexai", "vertexai2"}

  /** The factory functions of `providerRegistry`. */
  datatype Factory = OllamaFactory | OpenAIFactory | OpenAI2Factory | BedrockFactory | VertexAIFactory | VertexAI2Factory

  const ProviderRegistry: map<string, Factory> := map[
    "ollama" := OllamaFactory,
    "openai" := OpenAIFactory,
    "openai2" := OpenAI2Factory,
    "bedrock" := BedrockFactory,
    "vertexai" := VertexAIFactory,
    "vertexai2" := VertexAI2Factory]

  /** Running a factory; `None` is the nil the Bedrock factory returns for a
      model outside the Nova family. */
  function Build(f: Factory, p: Profile): (r: Option<Provider>)
    ensures r.None? <==> f == BedrockFactory && !GoStrings.HasPrefix(p.model, NovaPrefix)
    ensures r.Some? ==> !r.value.IsMock() && r.value.profile == p
  {
    match f
    case OllamaFactory => Some(Ollama(p))
    case OpenAIFactory => Some(OpenAI(p))
    case OpenAI2Factory => Some(OpenAI2(p))
    case BedrockFactory => if GoStrings.HasPrefix(p.model, NovaPrefix) then Some(Nova(p)) else None
    case VertexAIFactory => Some(VertexAI(p))
    case VertexAI2Factory => Some(VertexAI2(p))
  }

  /** The registry name each sub-package implementation is filed under. */
  function RegistryName(prov: Provider): string
    requires !prov.IsMock()
  {
    match prov
    case Ollama(_) => "ollama"
    case OpenAI(_) => "openai"
    case OpenAI2(_) => "openai2"
    case Nova(_) => "bedrock"
    case VertexAI(_) => "vertexai"
    case VertexAI2(_) => "vertexai2"
    case LegacyOllama(_) => "ollama"
    case LegacyOpenAI(_) => "openai"
    case LegacyNova(_) => "bedrock"
    case LegacyClaude(_) => "bedrock"
  }

  datatype RegistryError =
    | NotRecognized(provider: string)                // "provider '%s' not recognized"
    | ModelNotSupported(model: string, provider: string)  // "model '%s' is not supported by the '%s' provider yet"

  /** `GetProvider`. */
  function GetProvider(p: Profile): (r: Result<Provider, RegistryError>)
    ensures p.provider !in RegisteredNames <==> r == Err(NotRecognized(p.provider))
    ensures p.provider == "bedrock" && GoStrings.HasPrefix(p.model, NovaPrefix) ==> r == Ok(Nova(p))
    ensures p.provider == "bedrock" && !GoStrings.HasPrefix(p.model, NovaPrefix) ==>
              r == Err(ModelNotSupported(p.model, "bedrock"))
    ensures p.provider in RegisteredNames && p.provider != "bedrock" ==> r.Ok?
    ensures r.Ok? ==> !r.value.IsMock() && r.value.profile == p && RegistryName(r.value) == p.provider
  {
    if p.provider !in ProviderRegistry then Err(NotRecognized(p.provider))
    else
      match Build(ProviderRegistry[p.provider], p)
      case None => Err(ModelNotSupported(p.model, p.provider))
      case Some(prov) => Ok(prov)
  }

  /** The message a command's `switch` prints to stderr when it falls back to
      the mock provider. */
  datatype Notice =
    | BedrockModelUnsupported(model: string)   // "Error: Bedrock model '%s' not supported yet. Using mock provider."
    | ProviderUnrecognized(provider: string)   // "Warning: Provider '%s' not recognized. Using mock provider."

  datatype Dispatch = Dispatch(provider: Provider, notice: Option<Notice>)

  /** The provider `switch` of the `prompt` command. */
  function PromptDispatch(p: Profile): (r: Dispatch)
    ensures r.notice.None? <==> !r.provider.IsMock()
    ensures !r.provider.IsMock() ==> r.provider.profile == p && RegistryName(r.provider) == p.provider
    ensures p.provider == "bedrock" && GoStrings.HasPrefix(p.model, NovaPrefix) ==> r.provider == LegacyNova(p)
    ensures p.provider == "bedrock" && !GoStrings.HasPrefix(p.model, NovaPrefix) ==>
              r == Dispatch(LegacyMock, Some(BedrockModelUnsupported(p.model)))
    ensures p.provider !in {"ollama", "openai", "bedrock"} ==>
              r == Dispatch(LegacyMock, Some(ProviderUnrecognized(p.provider)))
  {
    match p.provider
    case "ollama" => Dispatch(LegacyOllama(p), None)
    case "openai" => Dispatch(LegacyOpenAI(p), None)
    case "bedrock" =>
      if GoStrings.HasPrefix(p.model, NovaPrefix) then Dispatch(LegacyNova(p), None)
      else Dispatch(LegacyMock, Some(BedrockModelUnsupported(p.model)))
    case _ => Dispatch(LegacyMock, Some(ProviderUnrecognized(p.provider)))
  }

  /** The provider `switch` of the `ask` command: Bedrock always means the
      Claude implementation, whatever the model. */
  function AskDispatch(p: Profile): (r: Dispatch)
    ensures r.notice.None? <==> !r.provider.IsMock()
    ensures !r.provider.IsMock() ==> r.provider.profile == p && RegistryName(r.provider) == p.provider
    ensures p.provider == "bedrock" ==> r.provider == LegacyClaude(p)
    ensures p.provider !in {"ollama", "openai", "bedrock"} ==>
              r == Dispatch(LegacyMock, Some(ProviderUnrecognized(p.provider)))
  {
    match p.provider
    case "ollama" => Dispatch(LegacyOllama(p), None)
    case "openai" => Dispatch(LegacyOpenAI(p), None)
    case "bedrock" => Dispatch(LegacyClaude(p), None)
    case _ => Dispatch(LegacyMock, Some(ProviderUnrecognized(p.provider)))
  }

  /** The flat package-`llm` counterpart of a sub-package implementation, where
      the flat package has one the `prompt` command can pick. */
  function LegacyCounterpart(prov: Provider): Option<Provider> {
    match prov
    case Ollama(p) => Some(LegacyOllama(p))
    case OpenAI(p) => Some(LegacyOpenAI(p))
    case Nova(p) => Some(LegacyNova(p))
    case Mock => Some(LegacyMock)
    case _ => None
  }

  /** The registry and the `prompt` switch agree wherever both build a real
      provider: the switch picks the flat counterpart of what the registry
      builds. Each registry failure, and each registry-only name (openai2,
      vertexai, vertexai2), makes the switch fall back to the mock provider. */
  lemma RegistryAgreesWithPrompt(p: Profile)
    ensures !PromptDispatch(p).provider.IsMock() ==>
              GetProvider(p).Ok? && LegacyCounterpart(GetProvider(p).value) == Some(PromptDispatch(p).provider)
    ensures GetProvider(p).Err? ==> PromptDispatch(p).provider == LegacyMock
    ensures p.provider in {"openai2", "vertexai", "vertexai2"} ==>
              GetProvider(p).Ok? && PromptDispatch(p).provider == LegacyMock
  {
  }

  /** The `prompt` and `ask` switches differ on Bedrock profiles only. */
  lemma PromptAskDiffer(p: Profile)
    ensures PromptDispatch(p) == AskDispatch(p) <==> p.provider != "bedrock"
  {
  }

  /** A registry failure names the model only when the provider name itself
      was recognised, and "not recognized" never arises for "bedrock". */
  lemma RegistryErrorsDistinct(p: Profile)
    ensures GetProvider(p).Err? && GetProvider(p).error.ModelNotSupported? ==> p.provider == "bedrock"
    ensures p.provider == "bedrock" ==> GetProvider(p) != Err(NotRecognized(p.provider))
  {
  }
}
