/** The `prompt` and `ask` commands up to the point where they hand the two
    prompt strings to a provider: prompt loading (user prompt first, then the
    system prompt), the `prompt` command's positional fallback and empty-prompt
    check, the configuration lookup, and the provider `switch`. */
module Commands {
  import opened Wrappers
  import opened Config
  import opened Registry
  import opened PromptSource

  /** The four prompt flags (`ask` spells the user ones `--prompt` and
      `--prompt-file`). */
  datatype Flags = Flags(userPrompt: string, userPromptFile: string, systemPrompt: string, systemPromptFile: string)

  /** What a command passes on: the chosen provider and the two prompts. */
  datatype Invocation = Invocation(dispatch: Dispatch, systemPrompt: string, userPrompt: string)

  /** The conditions on which a command prints an error and exits with status 1. */
  datatype CliError =
    | PromptUnreadable(readError: PromptError)
    | NoUserPrompt                       // "Error: No user prompt provided. …"
    | ConfigUnavailable(loadError: LoadError)  // "Error loading config: …"
    | ActiveProfileMissing(name: string)   // "Error: Active profile '%s' not found."

  /** Both `loadPrompt` calls, user prompt first; the system prompt sees the
      standard input the user prompt left. */
  function ResolvePrompts(f: Flags, fs: FileSystem, stdin: Stdin): (r: Result<(string, string), PromptError>)
    ensures LoadPrompt(f.userPrompt, f.userPromptFile, fs, stdin).Err? ==>
              r == Err(LoadPrompt(f.userPrompt, f.userPromptFile, fs, stdin).error)
    ensures r.Ok? ==> && LoadPrompt(f.userPrompt, f.userPromptFile, fs, stdin).Ok?
                      && var (user, rest) := LoadPrompt(f.userPrompt, f.userPromptFile, fs, stdin).value;
                         && r.value.0 == user
                         && LoadPrompt(f.systemPrompt, f.systemPromptFile, fs, rest).Ok?
                         && r.value.1 == LoadPrompt(f.systemPrompt, f.systemPromptFile, fs, rest).value.0
  {
    var u :- LoadPrompt(f.userPrompt, f.userPromptFile, fs, stdin);
    var s :- LoadPrompt(f.systemPrompt, f.systemPromptFile, fs, u.1);
    Ok((u.0, s.0))
  }

  /** The active profile of a loaded configuration. */
  function ActiveProfile(stored: StoredConfig): (r: Result<Profile, CliError>)
    ensures Load(stored).Err? ==> r == Err(ConfigUnavailable(Load(stored).error))
    ensures Load(stored).Ok? ==>
              var c := Load(stored).value;
              (c.currentProfile in c.profiles ==> r == Ok(c.profiles[c.currentProfile]))
              && (c.currentProfile !in c.profiles ==> r == Err(ActiveProfileMissing(c.currentProfile)))
  {
    match Load(stored)
    case Err(e) => Err(ConfigUnavailable(e))
    case Ok(c) =>
      if c.currentProfile in c.profiles then Ok(c.profiles[c.currentProfile])
      else Err(ActiveProfileMissing(c.currentProfile))
  }

  /** The positional fallback of `prompt`: the first argument replaces an
      empty user prompt, and only an empty one. */
  function WithPositional(user: string, args: seq<string>): (r: string)
    ensures user != "" ==> r == user
    ensures user == "" && |args| > 0 ==> r == args[0]
    ensures r == "" <==> user == "" && (|args| == 0 || args[0] == "")
  {
    if user == "" && |args| > 0 then args[0] else user
  }

  /** The `prompt` command. Prompts are loaded and checked before the
      configuration is read. */
  function PromptCommand(f: Flags, args: seq<string>, fs: FileSystem, stdin: Stdin, stored: StoredConfig)
    : (r: Result<Invocation, CliError>)
    ensures ResolvePrompts(f, fs, stdin).Err? ==> r == Err(PromptUnreadable(ResolvePrompts(f, fs, stdin).error))
    ensures ResolvePrompts(f, fs, stdin).Ok? && WithPositional(ResolvePrompts(f, fs, stdin).value.0, args) == "" ==>
              r == Err(NoUserPrompt)
    ensures r.Ok? ==> && ResolvePrompts(f, fs, stdin).Ok?
                      && r.value.userPrompt == WithPositional(ResolvePrompts(f, fs, stdin).value.0, args)
                      && r.value.userPrompt != ""
                      && r.value.systemPrompt == ResolvePrompts(f, fs, stdin).value.1
                      && ActiveProfile(stored).Ok?
                      && r.value.dispatch == PromptDispatch(ActiveProfile(stored).value)
    ensures ResolvePrompts(f, fs, stdin).Ok? && WithPositional(ResolvePrompts(f, fs, stdin).value.0, args) != "" ==>
              (r.Ok? <==> ActiveProfile(stored).Ok?)
  {
    var prompts :- ResolvePrompts(f, fs, stdin).MapError(e => PromptUnreadable(e));
    var user := WithPositional(prompts.0, args);
    if user == "" then Err(NoUserPrompt)
    else
      var profile :- ActiveProfile(stored);
      Ok(Invocation(PromptDispatch(profile), prompts.1, user))
  }

  /** The `ask` command: no positional fallback and no empty-prompt check. */
  function AskCommand(f: Flags, fs: FileSystem, stdin: Stdin, stored: StoredConfig)
    : (r: Result<Invocation, CliError>)
    ensures ResolvePrompts(f, fs, stdin).Err? ==> r == Err(PromptUnreadable(ResolvePrompts(f, fs, stdin).error))
    ensures ResolvePrompts(f, fs, stdin).Ok? ==> (r.Ok? <==> ActiveProfile(stored).Ok?)
    ensures r.Ok? ==> && ResolvePrompts(f, fs, stdin).Ok?
                      && r.value.userPrompt == ResolvePrompts(f, fs, stdin).value.0
                      && r.value.systemPrompt == ResolvePrompts(f, fs, stdin).value.1
                      && r.value.dispatch == AskDispatch(ActiveProfile(stored).value)
  {
    var prompts :- ResolvePrompts(f, fs, stdin).MapError(e => PromptUnreadable(e));
    var profile :- ActiveProfile(stored);
    Ok(Invocation(AskDispatch(profile), prompts.1, prompts.0))
  }

  /** Piped standard input goes to the user prompt: a system prompt that
      also falls back to standard input then reads nothing. */
  lemma StdinGoesToUserPrompt(f: Flags, fs: FileSystem, s: string)
    requires f.userPrompt == "" && f.userPromptFile == ""
    requires f.systemPrompt == "" && (f.systemPromptFile == "" || f.systemPromptFile == StdinPath)
    ensures ResolvePrompts(f, fs, Stdin(false, Some(s))) == Ok((s, ""))
  {
    var after := Stdin(false, Some(""));
    assert LoadPrompt(f.userPrompt, f.userPromptFile, fs, Stdin(false, Some(s))) == Ok((s, after));
    DrainedReadsEmpty(f.systemPrompt, f.systemPromptFile, fs, after);
  }

  /** When the user prompt is not read from standard input, the system
      prompt sees standard input exactly as it came. */
  lemma SystemPromptSeesStdinWhenUserDoesNot(f: Flags, fs: FileSystem, stdin: Stdin)
    requires f.userPrompt != "" || (f.userPromptFile != "" && f.userPromptFile != StdinPath)
    requires LoadPrompt(f.userPrompt, f.userPromptFile, fs, stdin).Ok?
    ensures ResolvePrompts(f, fs, stdin).Ok? <==> LoadPrompt(f.systemPrompt, f.systemPromptFile, fs, stdin).Ok?
    ensures ResolvePrompts(f, fs, stdin).Ok? ==>
              ResolvePrompts(f, fs, stdin).value.1 == LoadPrompt(f.systemPrompt, f.systemPromptFile, fs, stdin).value.0
  {
  }

  /** `ask` and `prompt` hand the same two prompts on whenever the loaded
      user prompt is non-empty and the configuration yields an active
      profile; only the provider choice may differ, and only for Bedrock. */
  lemma AskAgreesWithPrompt(f: Flags, args: seq<string>, fs: FileSystem, stdin: Stdin, stored: StoredConfig)
    requires ResolvePrompts(f, fs, stdin).Ok? && ResolvePrompts(f, fs, stdin).value.0 != ""
    requires ActiveProfile(stored).Ok?
    ensures PromptCommand(f, args, fs, stdin, stored).Ok? && AskCommand(f, fs, stdin, stored).Ok?
    ensures PromptCommand(f, args, fs, stdin, stored).value.userPrompt == AskCommand(f, fs, stdin, stored).value.userPrompt
    ensures PromptCommand(f, args, fs, stdin, stored).value.systemPrompt == AskCommand(f, fs, stdin, stored).value.systemPrompt
    ensures ActiveProfile(stored).value.provider != "bedrock" ==>
              PromptCommand(f, args, fs, stdin, stored) == AskCommand(f, fs, stdin, stored)
  {
    PromptAskDiffer(ActiveProfile(stored).value);
  }

  /** With no prompt anywhere, `prompt` refuses to run whatever the
      configuration, while `ask` sends two empty prompts. */
  lemma EmptyPromptHandling(fs: FileSystem, stored: StoredConfig)
    ensures PromptCommand(Flags("", "", "", ""), [], fs, Stdin(true, Some("")), stored) == Err(NoUserPrompt)
    ensures AskCommand(Flags("", "", "", ""), fs, Stdin(true, Some("")), stored).Ok? ==>
              var inv := AskCommand(Flags("", "", "", ""), fs, Stdin(true, Some("")), stored).value;
              inv.userPrompt == "" && inv.systemPrompt == ""
  {
  }
}
