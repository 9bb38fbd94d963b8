# llm-cli in Dafny

A model of the decision logic of `llm-cli`, a command-line client that sends a
system prompt and a user prompt to a large-language-model provider and prints the
answer, whole or streamed. Everything below the HTTP, SDK and file-system calls is
stated as pure functions over immutable datatypes:

- **Configuration store** (`Config`): profiles with their size limits; `Load`, which
  supplies a default configuration when no file exists and gives every profile with
  all-zero limits the default limits; the configuration path; and `~` expansion in
  `ResolvePath`.
- **Profile commands** (`ProfileCommands`): `add`, `remove`, `use` and `set`. Each is
  a guarded update of the `{current profile, profiles}` record, with one error result
  per guard.
- **Provider selection** (`Registry`): the provider registry with its two failure
  kinds. Also the older `switch` statements of the `prompt` and `ask` commands, which
  fall back to the mock provider.
- **Prompt loading** (`PromptSource`, `Commands`):
  - each prompt is taken from a direct value, then a file (`-` is standard input),
    then piped standard input, and is otherwise empty;
  - the user prompt is resolved before the system prompt;
  - `prompt` applies a positional-argument fallback and an empty-prompt check; `ask`
    applies neither.
- **Providers**: Ollama, OpenAI, the model-resolving `openai2` variant, Vertex AI
  (two revisions), Bedrock Nova (two revisions), Bedrock Claude and the mock provider.
  For each, the model covers:
  - default endpoints, message assembly and credential precedence;
  - `ValidateConfig` where the provider defines one (Ollama, OpenAI);
  - the decoding of responses and of stream lines or stream events;
  - what `ChatStream` sends on its channel and what error it returns, including under
    cancellation.
- **Channel close** (`Streaming`): which side closes the response channel of a
  streamed answer, and what the reading loop then sees.

Inputs the program reads from outside are parameters:

- what reading and decoding the configuration file produced (`StoredConfig`);
- the files a provider can read, and the home and working directories (`Host`);
- standard input and whether it is a terminal (`Stdin`);
- each HTTP exchange, as a function from the request to its outcome (`Http`);
- whether `url.Parse` accepts a URL, which creating a request needs (`UrlParser`);
- each SDK call (`Sdk`, `ChatService`);
- a cancellation context that becomes done after a given number of delivered chunks
  (`Ctx`).

JSON bodies are either documents (`GoJson.Json`) or the decoded shapes a provider
reads. `encoding/json` rules are modelled explicitly: unknown members are ignored, a
missing member or `null` gives the zero value, and a member of the wrong type is a
decoding error.

The repository holds two revisions of several providers: the flat files
`internal/llm/*.go` and the sub-packages `internal/llm/<name>/provider.go`. Where
the two revisions behave the same, one definition models both, and the rows below
cite lines of both revisions across different members. These pairs share a
definition:

- `ollama.go` and `ollama/provider.go`;
- `mock.go` and `mock/provider.go`;
- the `resolveModel` and models-URL logic of `openai2.go` and `openai2/provider.go`;
- `loadPrompt` in `cmd/prompt.go` and `cmd/ask.go`.

Where the two revisions differ, both are modelled and a lemma relates them:

- `OpenAI.ChatRevisionsAgree`;
- `OpenAI.ChatStreamRevisionsAgree`;
- `Vertex.RevisionsAgreeWithoutSystemPrompt`;
- `Bedrock.NovaChatRevisionsAgree`;
- `Bedrock.NovaStreamRevisionsAgree`.

Two details of prompt loading:

- `loadPrompt` reads piped standard input before the positional argument is
  considered, so piped input wins over the positional argument.
- `-` is accepted for the system prompt file as well as for the user prompt file.

## Model

| member | source | states |
|---|---|---|
| `Config.NormaliseLimits` | internal/config/config.go:85-96 | All-zero limits become the defaults (enabled, stop/stop, 10485760, 20971520). Any other value, even a partly filled one, is kept. The result is never all-zero. |
| `Config.Normalise` | internal/config/config.go:85-96 | Keeps the current profile, the profile names and every non-limit field. A profile with all-zero limits gets the default limits; every other profile is kept exactly. Afterwards no profile has all-zero limits. |
| `Config.Load` | internal/config/config.go:49-99 | A missing file gives the default configuration. A failed home lookup, a failed read and a failed decode each give their own error. A decoded file keeps its current profile and profile names, and comes back normalised. |
| `Config.DefaultConfigShape` | internal/config/config.go:57-74 | On a fresh installation the current profile is "default", and the only profile is "default" = ollama/llama3 with the default limits and no endpoint or key. |
| `Config.NormaliseFixedIff` | internal/config/config.go:86 | Normalisation leaves a configuration unchanged exactly when no profile has all-zero limits. |
| `Config.NormaliseIdempotent` | internal/config/config.go:85-96 | Normalising twice is the same as normalising once. |
| `Config.SaveLoadRoundTrip` | internal/config/config_test.go:48-99 | Saving and loading reproduces a configuration exactly when it is normalised, so anything `Load` returned survives a save/load cycle. |
| `Config.GetConfigPath` | internal/config/config.go:124-130 | Without a home directory the result is an error. With a non-empty home directory the path ends in "/.config/llm-cli/config.json". |
| `Config.ConfigPathExact` | internal/config/config_test.go:101-115 | For a clean home directory the path is exactly home + "/.config/llm-cli/config.json". |
| `Config.ResolvePath` | internal/config/config.go:134-143 | A leading `~` without a home directory is an error. A path without `~` goes to absolutisation unchanged. |
| `Config.ResolveHomeRelative` | internal/config/config.go:135-142 | "~/rest" resolves to home/rest, whatever the working directory. |
| `FilePaths.ExpandHome` | internal/llm/vertexai.go:95-104 | A path without a leading `~` is returned unchanged and the home directory is not looked up. `~` without a home directory is an error. With a home directory the result is non-empty. |
| `FilePaths.ExpandHomeSlash` | internal/llm/vertexai.go:97-101 | For a clean home directory and a clean relative rest, "~/rest" expands to exactly home + "/" + rest. |
| `ProfileCommands.LoadForCommand` | cmd/add.go:33-36 | A command fails with the load error exactly when loading fails. Otherwise it works on the loaded configuration. |
| `ProfileCommands.AddToConfig` | cmd/add.go:38-53 | Fails if the name exists, or if there is no "default" profile; succeeds in every other case. On success the names grow by exactly the new one, the new profile is a copy of "default", and the other profiles and the current profile are unchanged. |
| `ProfileCommands.AddProfile` | cmd/add.go:32-55 | A load failure is reported before anything else. Otherwise the outcome is that of adding to the loaded configuration. |
| `ProfileCommands.RemoveFromConfig` | cmd/remove.go:41-49 | Fails for an unknown name ("not found") and for the active profile; succeeds in every other case. On success exactly that name is deleted and nothing else changes. |
| `ProfileCommands.RemoveProfile` | cmd/remove.go:31-55 | "default" is refused before the configuration is even loaded. Then a load failure is reported. Otherwise the outcome is that of removing from the loaded configuration. |
| `ProfileCommands.UseInConfig` | cmd/use.go:37-41 | An unknown name fails. Otherwise the profiles are untouched and the current profile becomes the name, which is a profile key. |
| `ProfileCommands.UseProfile` | cmd/use.go:31-46 | A load failure is reported first. Otherwise the outcome is that of switching in the loaded configuration. |
| `ProfileCommands.ParseKey` | cmd/set.go:48-64 | A recognised key is exactly the spelling of the field it names. Any other key is unknown. |
| `ProfileCommands.ParseKeyName` | cmd/set.go:48-62 | Each of the seven spellings, from model to aws_secret_access_key, is recognised as its own field. |
| `ProfileCommands.SetField` | cmd/set.go:49-62 | The named field takes the value. The other six settable fields, the project, location, credentials file and limits are unchanged. |
| `ProfileCommands.SetFieldCharacterised` | cmd/set.go:48-62 | The updated profile is the one and only profile with those properties. |
| `ProfileCommands.SetInConfig` | cmd/set.go:43-67 | Fails if the active profile is missing, then if the key is unknown; succeeds in every other case. Only the active profile changes, and only in the named field; the names and the current profile stay. |
| `ProfileCommands.SetProfileValue` | cmd/set.go:37-72 | A load failure is reported first. Otherwise the outcome is that of setting in the loaded configuration. |
| `ProfileCommands.CommandsPreserveWellFormed` | cmd/remove.go:45-49 | If "default" and the current profile were both keys before a successful add, remove (of a name other than "default"), use or set, they still are afterwards. |
| `ProfileCommands.FreshInstallWellFormed` | internal/config/config.go:57-74 | The fresh-installation configuration holds "default", and its current profile is a key. |
| `ProfileCommands.AddRemoveRoundTrip` | cmd/profile_commands_test.go:123-151 | Adding a new name and then removing it gives back the original configuration. |
| `ProfileCommands.SetLastWriteWins` | cmd/set.go:67 | Setting a key twice is the same as setting it once to the second value. |
| `ProfileCommands.UseRoundTrip` | cmd/use.go:41 | Switching to a profile and back to the previous one restores the configuration. |
| `ProfileCommands.TestFixtureLoaded` | cmd/profile_commands_test.go:36-57 | The tests' fixture loads with "default" current and exactly the profiles "default" (ollama) and "existing_profile". |
| `ProfileCommands.ReloadKeeps` | internal/config/config.go:49-99 | A saved configuration read back through `Load` keeps its current profile and each profile's provider and model. |
| `ProfileCommands.TestFixtureAdd` | cmd/profile_commands_test.go:71-87 | On the fixture, adding "new_profile" succeeds, and after reloading that profile's provider is "ollama", copied from "default". Adding "default" fails as already existing. |
| `ProfileCommands.TestFixtureUse` | cmd/profile_commands_test.go:89-104 | On the fixture, using "existing_profile" succeeds, and after reloading it is the current profile. Using "non_existent_profile" fails as not found. |
| `ProfileCommands.TestFixtureSet` | cmd/profile_commands_test.go:106-121 | On the fixture, setting "model" to "test-model-123" succeeds, and after reloading the "default" profile has that model. The key "invalid_key" fails as unknown. |
| `ProfileCommands.TestFixtureRemove` | cmd/profile_commands_test.go:123-150 | On the fixture, removing "existing_profile" succeeds, and after reloading it is gone. Removing "default" fails, whether or not it is the current profile. |
| `Registry.Build` | cmd/providers.go:23-36 | A factory fails only for bedrock with a model outside "amazon.nova". Otherwise it builds a non-mock provider carrying the profile unchanged. |
| `Registry.GetProvider` | cmd/providers.go:41-53 | An unregistered name gives "not recognized", and only an unregistered name does. Bedrock gives the Nova provider for "amazon.nova" models and "model not supported" otherwise. Every other registered name succeeds, with the profile unchanged. |
| `Registry.PromptDispatch` | cmd/prompt.go:59-78 | A notice is printed exactly when the mock provider is chosen. Bedrock with an "amazon.nova" model gives the flat Nova provider; another bedrock model falls back to the mock provider with an "unsupported model" notice. Names other than ollama, openai and bedrock fall back with an "unrecognised provider" notice. |
| `Registry.AskDispatch` | cmd/ask.go:46-58 | Bedrock always gives the Claude provider, whatever the model. Names other than ollama, openai and bedrock fall back to the mock provider with a notice. |
| `Registry.RegistryAgreesWithPrompt` | cmd/providers.go:41-53 | Wherever the `prompt` switch builds a real provider, the registry succeeds with its sub-package counterpart. Every registry failure, and each of openai2, vertexai and vertexai2, makes the switch fall back to the mock provider. |
| `Registry.PromptAskDiffer` | cmd/ask.go:52-53 | The `prompt` and `ask` switches choose alike exactly when the provider is not bedrock. |
| `Registry.RegistryErrorsDistinct` | cmd/providers.go:42-50 | "Model not supported" arises only for bedrock, and bedrock never gives "not recognized". |
| `PromptSource.Choose` | cmd/ask.go:87-117 | A non-empty direct value wins. Otherwise a non-empty path is used. Otherwise piped standard input is read, and a terminal gives nothing. |
| `PromptSource.LoadPrompt` | cmd/prompt.go:126-156 | A direct value is returned verbatim without touching files or standard input. A file path returns the file's content, or an error if it cannot be read. "-" and piped standard input return all of standard input or its read error. A terminal gives "". |
| `PromptSource.LoadPromptStdinUse` | cmd/prompt.go:133-153 | Standard input is consumed only through "-" or the piped fallback, and is then left drained. |
| `PromptSource.DrainedReadsEmpty` | cmd/prompt.go:145-153 | Reading standard input again after it was drained gives "". |
| `Commands.ResolvePrompts` | cmd/prompt.go:32-33 | The user prompt is loaded first, and its error is reported first. The system prompt is then loaded from the standard input the user prompt left. |
| `Commands.ActiveProfile` | cmd/prompt.go:47-57 | A configuration error is reported. Otherwise the result is the current profile if it exists, and an "active profile not found" error if not. |
| `Commands.WithPositional` | cmd/prompt.go:36-38 | The first positional argument is used only when the loaded user prompt is empty. The result is empty exactly when both are empty or absent. |
| `Commands.PromptCommand` | cmd/prompt.go:26-78 | A prompt read error comes first, then an empty user prompt. Otherwise the command succeeds exactly when the active profile is found, with the non-empty user prompt, the system prompt and the `prompt` dispatch of that profile. |
| `Commands.AskCommand` | cmd/ask.go:24-58 | A prompt read error comes first. Otherwise the command succeeds exactly when the active profile is found, with the prompts as loaded (no positional fallback, no empty check) and the `ask` dispatch. |
| `Commands.StdinGoesToUserPrompt` | cmd/prompt.go:32-33 | With piped input and no user prompt source, the user prompt takes all of standard input, and a system prompt read from "-" gets "". |
| `Commands.SystemPromptSeesStdinWhenUserDoesNot` | cmd/ask.go:30-31 | When the user prompt comes from a direct value or a named file, the system prompt is loaded exactly as if it were loaded alone. |
| `Commands.AskAgreesWithPrompt` | cmd/ask.go:30-44 | With a non-empty loaded user prompt and a found profile, both commands succeed with the same prompts, and they are identical unless the provider is bedrock. |
| `Commands.EmptyPromptHandling` | cmd/prompt.go:41-44 | With no prompt from any source, `prompt` fails with the empty-prompt error, while `ask` passes two empty prompts on. |
| `Llm.ChatMessages` | internal/llm/openai2.go:156-160 | One message, or two when the system prompt is non-empty. The system message comes first when present, and the user message is always last. |
| `Llm.ChatMessagesRoundTrip` | internal/llm/openai/provider.go:47-51 | Both prompts can be read back from the message list, including an empty system prompt. |
| `Llm.ChatMessagesOnto` | internal/llm/ollama.go:46-50 | Every list of that shape is the message list of the prompts read from it. |
| `Llm.Relay` | internal/llm/ollama/provider.go:147-151 | A loop that sends through a `select` with `ctx.Done()` never delivers more chunks than the context allows. |
| `Llm.RelayChecked` | internal/llm/bedrock/provider.go:266-284 | A loop that checks `ctx.Done()` before each event and then sends never delivers more chunks than the context allows. |
| `Llm.Classified` | internal/llm/ollama/provider.go:134-152 | The loop's items become steps one for one, in order: each step is the classification of the item at the same position. |
| `Llm.AfterLoop` | internal/llm/ollama/provider.go:155-157 | The check after the loop keeps the sent chunks. It reports the reader's error only when the loop itself ended without error. |
| `Llm.RelayUncancelled` | internal/llm/ollama.go:126-143 | Uncancelled, a loop sends exactly the chunks before the first failing event and returns that failure, or nil. |
| `Llm.RelayCancelled` | internal/llm/openai/provider.go:212-218 | A context that is done after n deliveries cuts the uncancelled output at n chunks and returns the context error. With no more than n chunks the output is unchanged. |
| `Llm.RelayCheckedUncancelled` | internal/llm/bedrock_nova.go:222-228 | Uncancelled, the checking loop sends what the `select` loop sends. |
| `Llm.RelayCheckedCancelled` | internal/llm/bedrock.go:142-147 | Cancelled, the checking loop sends a prefix of the uncancelled output. It returns the context error whenever the uncancelled output is longer than the context allows, and otherwise returns exactly the uncancelled outcome. |
| `Ollama.Endpoint` | internal/llm/ollama.go:40-44 | An empty endpoint becomes http://localhost:11434/api/chat. A set endpoint is used as it is. |
| `Ollama.BuildRequest` | internal/llm/ollama/provider.go:43-54 | The request carries the effective endpoint, the profile's model, the stream flag and the system-then-user messages. |
| `Ollama.Chat` | internal/llm/ollama/provider.go:35-81 | The request is sent with stream=false. A transport failure and a non-200 status each give their own error. The answer is the decoded message content, exactly when the body decodes. |
| `Ollama.Classify` | internal/llm/ollama/provider.go:136-151 | A blank line is skipped. An undecodable line aborts with an error. Every other line forwards its content, even an empty one. |
| `Ollama.ChatStream` | internal/llm/ollama/provider.go:84-160 | An endpoint that does not parse fails at request creation, before anything is sent. Otherwise the request is sent with stream=true. A transport failure or a bad status sends nothing and returns its error. Otherwise the lines are relayed through the `select` loop, and the scanner's error is checked afterwards. |
| `Ollama.StreamReadsLines` | internal/llm/ollama.go:126-143 | Uncancelled, the stream sends the content of every non-blank line up to the first undecodable one, and that line is the error. |
| `Ollama.ValidateConfig` | internal/llm/ollama/provider.go:170-177 | Validation fails exactly when the model is empty. |
| `Ollama.ValidatedRequest` | internal/llm/ollama/provider.go:163-177 | A validated profile always sends a non-empty model, and the default endpoint when none is set. |
| `OpenAI.Endpoint` | internal/llm/openai/provider.go:41-44 | An empty endpoint becomes https://api.openai.com/v1/chat/completions. A set endpoint is used as it is. The result is never empty. |
| `OpenAI.Authorization` | internal/llm/openai.go:70-72 | The header is present exactly when the key is non-empty, and it is "Bearer " + key. |
| `OpenAI.BuildRequest` | internal/llm/openai/provider.go:47-85 | The request carries the endpoint, the model, the stream flag, the system-then-user messages and the authorization rule. |
| `OpenAI.LoadKeyFile` | internal/llm/openai/provider.go:235-256 | A path that cannot be resolved is an error. A key is returned only from a readable, decodable file whose "openai_api_key" is non-empty. A missing key is its own error. |
| `OpenAI.ChatAnswer` | internal/llm/openai/provider.go:88-111 | A transport failure and a non-200 status each give their own error. An answer with no choices is an error. Otherwise the result is the first choice's content. |
| `OpenAI.EffectiveKey` | internal/llm/openai/provider.go:71-79 | Without a credentials file the inline key is used. With one, only the file's key is used, and a failure to load it is an error. |
| `OpenAI.Chat` | internal/llm/openai/provider.go:39-112 | An endpoint that does not parse fails at request creation, before the key is loaded. Then a key-file failure stops the call before any request is sent. Otherwise the non-streaming request uses the default-or-set endpoint and the effective key. |
| `OpenAI.LegacyChat` | internal/llm/openai.go:37-99 | The flat revision: an endpoint that does not parse fails at request creation. Otherwise the non-streaming request uses the default-or-set endpoint and the inline key, and no credentials or key-file error can occur. |
| `OpenAI.ChatRevisionsAgree` | internal/llm/openai.go:37-99 | Without a credentials file, the flat revision and the sub-package revision give the same answer. |
| `OpenAI.Payload` | internal/llm/openai/provider.go:193-197 | A line has a payload exactly when it starts with "data: " and is not "data: [DONE]". The payload is the rest of the line. |
| `OpenAI.Classify` | internal/llm/openai/provider.go:190-219 | Lines without a payload are skipped. A payload containing `"error":` aborts. An undecodable payload or one with no choices is skipped. Otherwise the first choice's delta is forwarded. |
| `OpenAI.StreamAnswer` | internal/llm/openai.go:111-203 | A transport failure or a bad status sends nothing and returns its error. Otherwise the lines are relayed through the `select` loop, and the scanner's error is checked afterwards. |
| `OpenAI.ChatStream` | internal/llm/openai/provider.go:124-227 | An endpoint that does not parse sends nothing and fails at request creation, before the key is loaded. Then a key-file failure sends nothing and returns its error. Otherwise the streaming request uses the effective key. |
| `OpenAI.LegacyChatStream` | internal/llm/openai.go:111-203 | The flat revision: an endpoint that does not parse sends nothing and fails at request creation. Otherwise the streaming request uses the default-or-set endpoint and the inline key. |
| `OpenAI.ChatStreamRevisionsAgree` | internal/llm/openai.go:111-203 | Without a credentials file, the flat streaming revision and the sub-package one send the same chunks and return the same error. |
| `OpenAI.StreamReadsLines` | internal/llm/openai.go:166-195 | Uncancelled, the stream forwards the delta of every decodable data line up to the first error payload, which is the error. |
| `OpenAI.SkippedLineExamples` | internal/llm/openai/provider.go:193-195 | "data: [DONE]", "data:{}" without the space, and ": keep-alive" are all skipped. |
| `OpenAI.ErrorLineExample` | internal/llm/openai/provider.go:200-202 | A payload with an `"error":` member aborts the stream with that payload. |
| `OpenAI.DataLineExample` | internal/llm/openai/provider.go:206-218 | A decoded data line forwards its first delta. |
| `OpenAI.ValidateConfig` | internal/llm/openai/provider.go:265-304 | An empty model fails first. The default endpoint with neither a key nor a key file fails. A profile passes exactly when it has a model, a key source for the default endpoint, and a key file whose path resolves and which `os.Stat` does not report missing. It does not have to be readable. |
| `OpenAI.EndpointRequiredUnreachable` | internal/llm/openai/provider.go:282-289 | The "custom endpoint requires 'endpoint'" error can never be returned. |
| `OpenAI.ValidatedFileIsFound` | internal/llm/openai/provider.go:292-301 | Validation does not make the key file readable. After validation, loading an unreadable file still fails as unreadable, and a readable file can fail only on its content: undecodable, or without a key. |
| `OpenAI2.ModelsUrl` | internal/llm/openai2.go:46-48 | The models URL always ends in "/v1/models". |
| `OpenAI2.ModelsUrlOfBase` | internal/llm/openai2/provider.go:71-73 | A base URL, base + "/v1" and base + "/v1/chat/completions" all give base + "/v1/models". |
| `OpenAI2.FetchModels` | internal/llm/openai2/provider.go:69-113 | The list is fetched only from a URL that parses, with a loaded key, and with an `http` or `https` scheme in either letter case. It comes only from a 200 answer that decodes. The result is the listed ids. |
| `OpenAI2.UpperCaseScheme` | internal/llm/openai2/provider.go:75-88 | "HTTP://…" counts as an `http` URL, because `url.Parse` lower-cases the scheme. |
| `OpenAI2.Candidates` | internal/llm/openai2/provider.go:119-134 | The candidates are the comma-separated pieces of the setting, each trimmed of white space, in order. |
| `OpenAI2.Pick` | internal/llm/openai2/provider.go:139-150 | A resolving candidate always stands for a listed model. |
| `OpenAI2.FirstResolving` | internal/llm/openai2/provider.go:133-152 | Finds the first candidate that resolves against the list: "auto" with a non-empty list, or a listed name. Every earlier candidate does not resolve. |
| `OpenAI2.FirstNamed` | internal/llm/openai2/provider.go:157-164 | Finds the first candidate that is neither empty nor "auto". Every earlier one is empty or "auto". |
| `OpenAI2.ResolveCandidates` | internal/llm/openai2.go:92-142 | With a list, it resolves exactly when some candidate does, to the pick of the first such candidate, which is a listed model. Without a list, it resolves exactly when some candidate names a model, to the first such candidate. |
| `OpenAI2.ResolveModel` | internal/llm/openai2/provider.go:117-167 | Fails, naming the setting, exactly when no candidate resolves. Otherwise it returns the resolved model. |
| `OpenAI2.ResolvedModelOrigin` | internal/llm/openai2/provider.go:139-164 | With a fetched list the model is always in it. Without one, it is always one of the trimmed candidates. |
| `OpenAI2.CandidatesSingle` | internal/llm/openai2/provider.go:119-134 | A setting without a comma is a single trimmed candidate. |
| `OpenAI2.CandidatesPair` | internal/llm/openai2/provider.go:119 | "x,y" splits into the two trimmed candidates. |
| `OpenAI2.PlainSetting` | internal/llm/openai2/provider.go:134 | A model name without commas or surrounding white space is its own single candidate. |
| `OpenAI2.UnlistedThenAuto` | internal/llm/openai2/provider.go:139-143 | "a,auto" with "a" not listed resolves to the first listed model. |
| `OpenAI2.ListedSecondChoice` | internal/llm/openai2/provider.go:146-150 | "a, b" with only "b" listed resolves to "b". |
| `OpenAI2.AutoSkippedWithoutList` | internal/llm/openai2.go:132-139 | Without a list, "auto, b" resolves to "b". |
| `OpenAI2.AutoAloneWithoutList` | internal/llm/openai2/provider.go:157-166 | Without a list, "auto" alone cannot be resolved. |
| `OpenAI2.EmptyListResolvesNothing` | internal/llm/openai2/provider.go:154-166 | An empty fetched list resolves nothing, even when named candidates exist. |
| `OpenAI2.SingleModelWithoutList` | internal/llm/openai2.go:132-141 | Without a list, a plain model name resolves to itself. |
| `OpenAI2.ModelsUrlAsWritten` | internal/llm/openai2/provider.go:71-73 | As written, an empty endpoint gives the scheme-less URL "/v1/models". |
| `OpenAI2.EmptyEndpointNeverLists` | internal/llm/openai2/provider.go:69-100 | As written, with no endpoint the model list is never fetched, so "auto" alone never resolves. |
| `OpenAI2.ModelsUrlFor` | internal/llm/openai2/provider.go:176-179 | The corrected models URL is derived from the effective chat endpoint, and ends in "/v1/models". |
| `OpenAI2.ModelsUrlForDefault` | internal/llm/openai2.go:150-153 | With no endpoint, the corrected URL is https://api.openai.com/v1/models, which has a scheme. |
| `OpenAI2.ModelsUrlForAgrees` | internal/llm/openai2.go:44-48 | With an endpoint set, the corrected URL is the URL as written. |
| `OpenAI2.ApiKey` | internal/llm/openai2/provider.go:61-66 | A credentials file is the only key source when set. The inline key is used only otherwise. |
| `OpenAI2.RequestModel` | internal/llm/openai2/provider.go:69-167 | `resolveModel` fetches the list from the as-written URL. With no endpoint, or a key that cannot be loaded, it resolves as if no list existed. A resolved model is a listed one, or one of the setting's names when the fetch failed. |
| `OpenAI2.RequestModelCorrected` | internal/llm/openai2/provider.go:69-167 | Corrected, the list comes from the URL of the endpoint the chat request uses. The result equals the written one whenever an endpoint is set, and it never invents a model. |
| `OpenAI2.AutoResolvesOnlyWhenCorrected` | internal/llm/openai2/provider.go:71-73 | With no endpoint and the setting "auto", and a default server that lists models: as written, resolution fails; corrected, it picks the first listed model. |
| `OpenAI2.ChatWithModel` | internal/llm/openai2/provider.go:176-234 | After resolution, a resolution error is returned as is. Then an endpoint that does not parse fails at request creation. Then a key failure stops the call. Otherwise the request names the resolved model, the default-or-set endpoint and the key. |
| `OpenAI2.Chat` | internal/llm/openai2/provider.go:170-234 | As written, a failed resolution against the as-written models URL stops the call before anything else. Then an endpoint that does not parse fails at request creation, and then a key failure stops the call. Otherwise the request uses the resolved model, the default-or-set endpoint and the key. |
| `OpenAI2.ChatCorrected` | internal/llm/openai2/provider.go:170-234 | With the corrected resolution, the call equals `Chat` whenever an endpoint is set. With none, the model resolved against the default server's list goes to the default endpoint. |
| `OpenAI2.ChatStreamWithModel` | internal/llm/openai2/provider.go:243-324 | After resolution, the same error order as `ChatWithModel`, then the OpenAI stream reading. Nothing is sent when resolution, request creation or the key fails. |
| `OpenAI2.ChatStream` | internal/llm/openai2/provider.go:237-324 | As written, the same order as `Chat`, with the OpenAI stream reading. Nothing is sent when resolution, request creation or the key fails. |
| `OpenAI2.ChatStreamCorrected` | internal/llm/openai2/provider.go:237-324 | With the corrected resolution, the stream equals `ChatStream` whenever an endpoint is set. With none, it reads the answer for the model resolved against the default server's list. |
| `OpenAI2.SingleModelAsOpenAI` | internal/llm/openai2/provider.go:202-205 | When the setting resolves to the profile's model and no key file is set, the call behaves exactly like the OpenAI provider. |
| `Vertex.LoadServiceAccount` | internal/llm/vertexai.go:43-68 | The path is `~`-expanded. A failed expansion, an unreadable file, an empty file and invalid JSON each give their own error. A loaded account carries the file's client_email, private_key and token_uri. |
| `Vertex.NewClient` | internal/llm/vertexai.go:25-92 | An empty project or location fails first. A client has both, has an account exactly when a credentials file is set, and was accepted by the SDK. |
| `Vertex.ExtractText` | internal/llm/vertexai.go:180-184 | No response, or no candidates, gives "". |
| `Vertex.ExtractTextAppend` | internal/llm/vertexai.go:186-193 | The text of a response is the in-order concatenation over its candidates. |
| `Vertex.PartsTextAppend` | internal/llm/vertexai.go:188-191 | The text of a candidate is the in-order concatenation of its parts' texts. |
| `Vertex.SingleTextResponse` | internal/llm/vertexai.go:180-194 | A single candidate with a single text part gives back exactly that text. |
| `Vertex.PrimedHistory` | internal/llm/vertexai2.go:101-107 | The history is empty exactly when the system prompt is empty. Otherwise it is [user: system prompt, model: "OK."]. |
| `Vertex.UserConversation` | internal/llm/vertexai2.go:109-119 | The user prompt is sent exactly once, last. The first revision sends a non-empty system prompt before it, with no history. The second revision primes the history instead. |
| `Vertex.Prepare` | internal/llm/vertexai.go:110-127 | A client failure is reported first. The chat must be created, with the primed history in the second revision. In the first revision a non-empty system prompt must also be accepted. |
| `Vertex.Chat` | internal/llm/vertexai2.go:94-120 | After preparation, a failed send is an error. Otherwise the result is the extracted text of the reply. |
| `Vertex.Classify` | internal/llm/vertexai.go:161-174 | A stream error aborts. A chunk whose extracted text is empty is skipped. Every other chunk forwards its text. |
| `Vertex.ChatStream` | internal/llm/vertexai2.go:124-159 | A preparation failure sends nothing. Otherwise the stream items are relayed through the `select` loop. |
| `Vertex.StreamLosesNoText` | internal/llm/vertexai2.go:143-156 | Uncancelled, the forwarded chunks are all non-empty, and together they are exactly the text of the stream up to its first error. |
| `Vertex.RevisionsAgreeWithoutSystemPrompt` | internal/llm/vertexai.go:108-136 | Without a system prompt, both revisions send the same conversation and answer alike. |
| `Vertex.SystemPromptPlacement` | internal/llm/vertexai.go:122-135 | With a system prompt, the first revision sends it as a separate first message. The second revision puts it in a primed history and sends only the user prompt. |
| `Bedrock.LoadCredentialsFile` | internal/llm/bedrock/provider.go:306-327 | A path that cannot be resolved is an error. Credentials are returned only from a readable, decodable file with both keys non-empty. A file lacking either key is its own error. |
| `Bedrock.InlineCredentials` | internal/llm/bedrock_nova.go:89-91 | Static credentials are used exactly when both the key id and the secret are non-empty. |
| `Bedrock.LoadConfig` | internal/llm/bedrock/provider.go:120-123 | The SDK configuration succeeds exactly when the SDK accepts the options, which it keeps. Otherwise the result is the SDK's error. |
| `Bedrock.LegacyClient` | internal/llm/bedrock_nova.go:85-99 | The flat revision uses the profile's region and the inline-credentials rule. |
| `Bedrock.NewClient` | internal/llm/bedrock/provider.go:102-127 | Without a credentials file the inline rule applies. With one, only the file's keys are used, and a failure to load it is an error. |
| `Bedrock.NovaRequestFor` | internal/llm/bedrock/provider.go:158-168 | The request uses schema "messages-v1" with 500 maximum tokens and top-k 20. |
| `Bedrock.NovaRequestRoundTrip` | internal/llm/bedrock/provider.go:141-154 | The request holds exactly one user message with the user prompt. Its system list is empty exactly when the system prompt is empty, so both prompts can be read back. |
| `Bedrock.NovaInvocation` | internal/llm/bedrock/provider.go:176-183 | The request is invoked on the profile's model with a JSON body holding the Nova request. |
| `Bedrock.DecodeNovaResponse` | internal/llm/bedrock/provider.go:63-82 | A body decodes into the success structure exactly when every field it names has the right JSON type. The result is the text of each content block, with absent fields read as zero values. |
| `Bedrock.DecodeErrorResponse` | internal/llm/bedrock/provider.go:92-98 | A body decodes into the error structure exactly when it is an object or null whose type and message are strings or absent. |
| `Bedrock.InterpretAsWritten` | internal/llm/bedrock/provider.go:186-204 | As written, a body that decodes as success returns its first text, or "no content" when it has none. A model error is reported only for a body that does not decode as success. |
| `Bedrock.Interpret` | internal/llm/bedrock/provider.go:188-204 | Corrected: content wins. Then a non-empty error report gives "model error (type): message". Then a success shape without content gives "no content". An undecodable body gives the raw text. |
| `Bedrock.ErrorShapeReadsAsNoContent` | internal/llm/bedrock/provider.go:188-195 | As written, any object without output, stopReason or usage reads as "no content found". |
| `Bedrock.ValidationExceptionMisread` | internal/llm/bedrock/provider.go:94 | The error body shown in the source's own example is reported as "no content" as written, and as a model error when corrected. |
| `Bedrock.ErrorShapeReported` | internal/llm/bedrock/provider.go:198-201 | Corrected, every error-shaped body with a type or a message is reported as that model error. |
| `Bedrock.InterpretAgreesElsewhere` | internal/llm/bedrock/provider.go:186-204 | The correction changes only error-shaped bodies that were read as "no content". |
| `Bedrock.LegacyInterpret` | internal/llm/bedrock_nova.go:156-166 | The flat revision returns the first content text. A body without content is "no content", and an undecodable body is an error. |
| `Bedrock.ContentReadAlike` | internal/llm/bedrock_nova.go:162-166 | Both revisions, reading bodies as written, succeed on the same bodies, with the same text. |
| `Bedrock.NovaChat` | internal/llm/bedrock/provider.go:131-205 | A client failure and an invoke failure each give their own error. Otherwise the answer is the body read as written, so an error body gives "no content". |
| `Bedrock.NovaChatCorrected` | internal/llm/bedrock/provider.go:186-204 | With the corrected body reading, the call succeeds exactly when `NovaChat` does, with the same text. It differs only by reporting a model error where `NovaChat` says "no content". |
| `Bedrock.LegacyNovaChat` | internal/llm/bedrock_nova.go:102-167 | The same order, using the flat revision's client and reading of the body. |
| `Bedrock.NovaChatRevisionsAgree` | internal/llm/bedrock_nova.go:85-99 | Without a credentials file, both revisions succeed on the same inputs with the same answer. |
| `Bedrock.DecodeNovaChunk` | internal/llm/bedrock/provider.go:84-90 | A chunk decodes exactly when its contentBlockDelta.delta.text path has the right types. A chunk without contentBlockDelta decodes to "". |
| `Bedrock.NovaClassify` | internal/llm/bedrock/provider.go:275-284 | The sub-package never aborts on an event. It forwards each decodable chunk's text and skips everything else. |
| `Bedrock.LegacyNovaClassify` | internal/llm/bedrock_nova.go:231-240 | The flat revision aborts exactly on a non-chunk event. Chunks are read as the sub-package reads them. |
| `Bedrock.NovaChatStream` | internal/llm/bedrock/provider.go:209-297 | Client and invoke failures send nothing. Otherwise the events are relayed by the checking loop, and the stream's error is checked afterwards. |
| `Bedrock.LegacyNovaChatStream` | internal/llm/bedrock_nova.go:170-245 | The same, with the flat classifier and no check of the stream's error afterwards. |
| `Bedrock.NovaStreamReadsChunks` | internal/llm/bedrock/provider.go:265-289 | Uncancelled, the sub-package stream sends the text of every decodable chunk and returns no error. |
| `Bedrock.LegacyNovaStreamStopsAtOtherEvents` | internal/llm/bedrock_nova.go:222-242 | Uncancelled, the flat stream sends the decodable chunks before the first non-chunk event, and that event aborts it. |
| `Bedrock.NovaStreamRevisionsAgree` | internal/llm/bedrock_nova.go:231-237 | On a stream of chunks only, both revisions behave the same under any context. |
| `Bedrock.ClaudePrompt` | internal/llm/bedrock.go:68-71 | The prompt starts with "\n\nHuman: " and ends with "\n\nAssistant:". |
| `Bedrock.ClaudePromptCarriesPrompts` | internal/llm/bedrock.go:68-71 | Between those markers stands the user prompt, or the system prompt, a newline and the user prompt. |
| `Bedrock.SystemPromptIsFirstLine` | internal/llm/bedrock.go:69-71 | A system prompt is exactly a first line prepended to the user prompt. |
| `Bedrock.ClaudeInvocation` | internal/llm/bedrock.go:73-80 | The request uses the profile's model, 2000 tokens to sample, top-k 250 and the stop sequence "\n\nHuman:". |
| `Bedrock.ClaudeChat` | internal/llm/bedrock.go:60-102 | A client failure and an invoke failure each give their own error. The answer is the decoded "completion" field, and an undecodable body is an error. |
| `Bedrock.ClaudeClassify` | internal/llm/bedrock.go:150-159 | A decodable chunk forwards its "bytes" text, and an undecodable one aborts. An error event aborts with its code and message. Other events are ignored. |
| `Bedrock.ClaudeChatStream` | internal/llm/bedrock.go:105-164 | Client and invoke failures send nothing. Otherwise the events are relayed by the checking loop. |
| `Bedrock.ClaudeStreamReadsChunks` | internal/llm/bedrock.go:142-161 | Uncancelled, the stream sends every completion before the first failing event, and that failure is the error. |
| `Mock.Response` | internal/llm/mock/provider.go:22-25 | The reply starts with the mock header, ends with the footer, and has exactly the length of both prompts plus the fixed labels. |
| `Mock.Chat` | internal/llm/mock.go:14-17 | The mock `Chat` never fails. |
| `Mock.ResponseRoundTrip` | internal/llm/mock.go:14-17 | Both prompts can be read back verbatim from the reply, provided the system prompt is one line. |
| `Mock.ChatStream` | internal/llm/mock/provider.go:30-39 | The stream sends exactly one chunk, equal to `Chat`'s reply. On a done context it sends nothing and returns the context error. |
| `Streaming.ChannelEndOf` | cmd/prompt.go:99-101 | The reading loop ends exactly when the channel was closed once. It panics on a second close and blocks forever with none. |
| `Streaming.ClosesAsWritten` | cmd/prompt.go:89-96 | As written, the channel is closed once exactly when either the provider or the command closes it, but not both. |
| `Streaming.ChannelEndsAsWritten` | cmd/ask.go:62-74 | As written, a streamed `prompt` panics for every provider except openai. A streamed `ask` never ends with openai. |
| `Streaming.Closes` | cmd/ask.go:64-69 | Corrected, the command closes the channel exactly when the provider does not, so it is closed exactly once. The rule is the intended behaviour written as a definition, so the single close holds by construction. |
| `Streaming.ChannelEndsOnce` | cmd/prompt.go:82-112 | Corrected, every streamed answer of either command ends normally. |

## Left out

- The URL parser: whether `url.Parse` accepts an endpoint is the `UrlParser` parameter. `Ollama.Chat` posts with `http.Post`, whose parse failure is a transport error.
- File, network, SDK and terminal I/O. Reads and exchanges are parameters, and writing the configuration (`Save`) is taken to reproduce it exactly.
- Goroutines and scheduling. A stream is a finite sequence of events plus an end result. Go's nondeterministic `select` is resolved by the `Ctx` model: a send offered after the context is done is not received.
- Floating-point inference parameters (temperature, top-p). They are constants without logic.
- `json.Marshal` failures, which cannot happen for these request types. Also case-insensitive JSON key matching, 64-bit integer overflow and non-integer JSON numbers.
- The `.` and `..` elements of `filepath.Clean`. Only separators are normalised.
- Size limits and response sanitising: no code enforces them; only `Limits` and its defaults exist.
- The `edit`, `list`, `profile` and root commands: printing, an editor process and Cobra wiring.
- The `loadOpenAIAPIKeyFromFile` that `internal/llm/openai2.go` calls in package `llm` is not part of this model. `OpenAI2.ApiKey` uses the sub-package's loader for both revisions.
- `internal/llm/bedrock.go` imports two packages under the name `config`. Only its prompt formatting, request constants and response and stream reading are modelled.
- The text of error messages. Each error is a distinct constructor carrying the values the message quotes.
- `Vertex.ExtractText`: its contract states only the empty cases. The concatenation is stated by `Vertex.ExtractTextAppend`, `Vertex.PartsTextAppend` and `Vertex.SingleTextResponse`.
- `Mock.Chat`: its contract states only that it never fails. The reply's shape is stated by `Mock.Response`, and its content by `Mock.ResponseRoundTrip`.
- `Llm.Relay`: its contract states only the delivery bound. The full outcome is stated by `Llm.RelayUncancelled` and `Llm.RelayCancelled`.
- `Llm.RelayChecked`: its contract states only the delivery bound. The full outcome is stated by `Llm.RelayCheckedUncancelled` and `Llm.RelayCheckedCancelled`.

## Findings

The provider and command functions model the code as written. For the first two findings a `…Corrected` function beside them (`OpenAI2.RequestModelCorrected`, `OpenAI2.ChatCorrected`, `OpenAI2.ChatStreamCorrected`, `Bedrock.NovaChatCorrected`) models the intended behaviour, and its contract relates it to the written one. For the third, `Streaming.Closes` states the intended rule.

| source | as written | input that shows it | evidently intended | confidence | as-written member | corrected member |
|---|---|---|---|---|---|---|
| internal/llm/openai2/provider.go:71-73 | The models URL is derived from the raw profile endpoint, so an empty endpoint gives "/v1/models", which has no scheme. Fetching the list always fails, and a setting of only "auto" never resolves. The same code is at internal/llm/openai2.go:46-48. | endpoint "", model "auto" | Derive the URL from the effective endpoint, https://api.openai.com/v1/models | not executed | `OpenAI2.EmptyEndpointNeverLists` | `OpenAI2.AutoResolvesOnlyWhenCorrected` |
| internal/llm/bedrock/provider.go:188-201 | Every JSON object decodes into the success structure, so an error body yields "no content found". The error structure is never consulted. | body `{"message":"m","type":"ValidationException"}` | Report "model error (ValidationException): m" | not executed | `Bedrock.ValidationExceptionMisread` | `Bedrock.ErrorShapeReported` |
| cmd/prompt.go:91 | `prompt` closes the response channel after `ChatStream` returns, although the Ollama, Nova and mock providers already close it: a second close panics. `ask` (cmd/ask.go:64-69) never closes it, so with the OpenAI provider, which does not close either, `range` blocks forever. | provider "ollama" with `prompt --stream`; provider "openai" with `ask --stream` | The channel is closed exactly once | not executed | `Streaming.ChannelEndsAsWritten` | `Streaming.ChannelEndsOnce` |
