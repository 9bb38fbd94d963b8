/** `loadPrompt` of the `prompt` and `ask` commands (the two copies are
    identical): where a prompt string comes from. The file system and
    standard input are parameters; reading standard input drains it. */
module PromptSource {
  import opened Wrappers

  /** Standard input: whether it is a character device (an interactive
      terminal), and what reading it to the end yields (`None`: the read fails). */
  datatype Stdin = Stdin(isTerminal: bool, pending: Option<string>) {
    /** `io.ReadAll(os.Stdin)`: the remaining input, after which it is at its end. */
    function ReadAll(): (r: Result<(string, Stdin), PromptError>)
      ensures pending.None? ==> r == Err(StdinReadError)
      ensures pending.Some? ==> r.Ok? && r.value.0 == pending.value && r.value.1.Drained()
      ensures r.Ok? ==> r.value.1.isTerminal == isTerminal
    {
      match pending
      case None => Err(StdinReadError)
      case Some(s) => Ok((s, Stdin(isTerminal, Some(""))))
    }

    /** Nothing is left to read. */
    predicate Drained() {
      pending == Some("")
    }
  }

  /** The readable files: a path that is absent cannot be read. */
  type FileSystem = map<string, string>

  datatype PromptError =
    | FileReadError(path: string)   // "Error reading prompt file: …", then exit 1
    | StdinReadError                // "Error reading from stdin: …" (or the file error for "-"), then exit 1

  /** The path that stands for standard input. */
  const StdinPath := "-"

  /** The source `loadPrompt` takes its value from. */
  datatype Source = Direct | File(path: string) | PipedStdin | NoSource

  /** The priority order: a non-empty direct value, then a non-empty path,
      then standard input when it is piped, then nothing. */
  function Choose(direct: string, path: string, stdin: Stdin): (s: Source)
    ensures s == Direct <==> direct != ""
    ensures s.File? <==> direct == "" && path != ""
    ensures s.File? ==> s.path == path
    ensures s == PipedStdin <==> direct == "" && path == "" && !stdin.isTerminal
  {
    if direct != "" then Direct
    else if path != "" then File(path)
    else if !stdin.isTerminal then PipedStdin
    else NoSource
  }

  /** `loadPrompt`: the prompt text and the standard input left after it. */
  function LoadPrompt(direct: string, path: string, fs: FileSystem, stdin: Stdin)
    : (r: Result<(string, Stdin), PromptError>)
    ensures direct != "" ==> r == Ok((direct, stdin))
    ensures direct == "" && path != "" && path != StdinPath ==>
              (path in fs ==> r == Ok((fs[path], stdin))) && (path !in fs ==> r == Err(FileReadError(path)))
    ensures direct == "" && (path == StdinPath || (path == "" && !stdin.isTerminal)) ==> r == stdin.ReadAll()
    ensures direct == "" && path == "" && stdin.isTerminal ==> r == Ok(("", stdin))
  {
    match Choose(direct, path, stdin)
    case Direct => Ok((direct, stdin))
    case File(p) =>
      if p == StdinPath then stdin.ReadAll()
      else if p in fs then Ok((fs[p], stdin))
      else Err(FileReadError(p))
    case PipedStdin => stdin.ReadAll()
    case NoSource => Ok(("", stdin))
  }

  /** Standard input is touched only when it is the chosen source; any other
      outcome hands it on untouched. */
  lemma LoadPromptStdinUse(direct: string, path: string, fs: FileSystem, stdin: Stdin)
    ensures var r := LoadPrompt(direct, path, fs, stdin);
            r.Ok? && r.value.1 != stdin ==>
              direct == "" && (path == StdinPath || (path == "" && !stdin.isTerminal)) && r.value.1.Drained()
  {
  }

  /** Loading from a drained standard input gives the empty string whenever
      standard input is the source. */
  lemma DrainedReadsEmpty(direct: string, path: string, fs: FileSystem, stdin: Stdin)
    requires stdin.Drained() && direct == ""
    requires path == StdinPath || (path == "" && !stdin.isTerminal)
    ensures LoadPrompt(direct, path, fs, stdin) == Ok(("", stdin))
  {
  }
}
