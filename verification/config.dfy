/** The configuration store of `internal/config`: profiles, their size limits,
    the defaulting `Load` performs, and the paths the store lives at.
    Reading and decoding the file are inputs (`StoredConfig`); writing it back
    (`Save`) is taken to reproduce the value exactly. */
module Config {
  import opened Wrappers
  import FilePaths
  import GoStrings

  /** Size limits of one profile. `int64` fields are unbounded integers here:
      they are only ever copied or compared. */
  datatype Limits = Limits(
    enabled: bool,
    onInputExceeded: string,
    onOutputExceeded: string,
    maxPromptSizeBytes: int,
    maxResponseSizeBytes: int)

  datatype Profile = Profile(
    provider: string,
    endpoint: string,
    apiKey: string,
    model: string,
    awsRegion: string,
    awsAccessKeyId: string,
    awsSecretAccessKey: string,
    projectId: string,
    location: string,
    credentialsFile: string,
    limits: Limits)

  datatype Config = Config(currentProfile: string, profiles: map<string, Profile>)

  /** Go's zero value of `Limits`: what a profile without a `limits` object decodes to. */
  const ZeroLimits := Limits(false, "", "", 0, 0)

  /** The limits `Load` fills in: enabled, stop on both sides, 10 MiB prompt,
      20 MiB response. */
  const DefaultLimits := Limits(true, "stop", "stop", 10485760, 20971520)

  /** A profile with every field at its zero value. */
  const EmptyProfile := Profile("", "", "", "", "", "", "", "", "", "", ZeroLimits)

  /** The single profile of a fresh installation. */
  const DefaultProfile := EmptyProfile.(provider := "ollama", model := "llama3", limits := DefaultLimits)

  /** The configuration `Load` returns when no file exists. */
  const DefaultConfig := Config("default", map["default" := DefaultProfile])

  /** What reading and decoding the configuration file produced. */
  datatype StoredConfig =
    | HomeUnknown                   // os.UserHomeDir failed
    | NotExist                      // the file does not exist
    | ReadFailed(reason: string)    // any other read error
    | Undecodable(reason: string)   // json.Unmarshal failed
    | Decoded(config: Config)       // the decoded file

  datatype LoadError = NoHomeDir | ReadError(reason: string) | DecodeError(reason: string)

  /** `Load`'s per-profile rule: all-zero limits are replaced by the defaults;
      any other value, even a partly filled one, is kept. */
  function NormaliseLimits(l: Limits): (r: Limits)
    ensures l == ZeroLimits ==> r == DefaultLimits
    ensures l != ZeroLimits ==> r == l
    ensures r != ZeroLimits
  {
    if l == ZeroLimits then DefaultLimits else l
  }

  /** Two profiles agree on every field except possibly `limits`. */
  predicate SameExceptLimits(p: Profile, q: Profile) {
    p.(limits := ZeroLimits) == q.(limits := ZeroLimits)
  }

  /** No profile is left with the all-zero limits. */
  predicate Normalised(c: Config) {
    forall n :: n in c.profiles ==> c.profiles[n].limits != ZeroLimits
  }

  /** The defaulting loop of `Load` over every profile. */
  function Normalise(c: Config): (r: Config)
    ensures r.currentProfile == c.currentProfile
    ensures r.profiles.Keys == c.profiles.Keys
    ensures forall n :: n in c.profiles ==> SameExceptLimits(r.profiles[n], c.profiles[n])
    ensures forall n :: n in c.profiles && c.profiles[n].limits == ZeroLimits ==>
              r.profiles[n].limits == DefaultLimits
    ensures forall n :: n in c.profiles && c.profiles[n].limits != ZeroLimits ==>
              r.profiles[n] == c.profiles[n]
    ensures Normalised(r)
  {
    Config(c.currentProfile,
           map n | n in c.profiles :: c.profiles[n].(limits := NormaliseLimits(c.profiles[n].limits)))
  }

  /** `config.Load`. */
  function Load(stored: StoredConfig): (r: Result<Config, LoadError>)
    ensures stored.NotExist? ==> r == Ok(DefaultConfig)
    ensures stored.HomeUnknown? ==> r == Err(NoHomeDir)
    ensures stored.ReadFailed? ==> r == Err(ReadError(stored.reason))
    ensures stored.Undecodable? ==> r == Err(DecodeError(stored.reason))
    ensures stored.Decoded? ==> r.Ok? && r.value.currentProfile == stored.config.currentProfile
                                && r.value.profiles.Keys == stored.config.profiles.Keys
    ensures r.Ok? ==> Normalised(r.value)
  {
    match stored
    case HomeUnknown => Err(NoHomeDir)
    case NotExist => Ok(DefaultConfig)
    case ReadFailed(reason) => Err(ReadError(reason))
    case Undecodable(reason) => Err(DecodeError(reason))
    case Decoded(c) => Ok(Normalise(c))
  }

  /** The fresh-installation configuration: current profile "default", one
      profile "default" using ollama/llama3 with the default limits. */
  lemma DefaultConfigShape()
    ensures Load(NotExist).Ok?
    ensures var c := Load(NotExist).value;
      && c.currentProfile == "default"
      && c.profiles.Keys == {"default"}
      && c.profiles["default"].provider == "ollama"
      && c.profiles["default"].model == "llama3"
      && c.profiles["default"].limits == DefaultLimits
      && c.profiles["default"].endpoint == "" && c.profiles["default"].apiKey == ""
  {
  }

  /** Normalisation leaves a configuration alone exactly when it is already
      normalised. */
  lemma NormaliseFixedIff(c: Config)
    ensures Normalise(c) == c <==> Normalised(c)
  {
    if Normalised(c) {
      assert Normalise(c).profiles == c.profiles;
    }
  }

  /** Normalising twice is normalising once. */
  lemma NormaliseIdempotent(c: Config)
    ensures Normalise(Normalise(c)) == Normalise(c)
  {
    NormaliseFixedIff(Normalise(c));
  }

  /** Saving a configuration and loading it back reproduces it exactly when it
      is normalised; so anything `Load` returned survives Save-then-Load. */
  lemma SaveLoadRoundTrip(c: Config)
    ensures Load(Decoded(c)) == Ok(c) <==> Normalised(c)
    ensures Load(Decoded(Normalise(c))) == Ok(Normalise(c))
  {
    NormaliseFixedIff(c);
    NormaliseIdempotent(c);
  }

  const ConfigDir := ".config"
  const ConfigFile := "llm-cli/config.json"

  /** `GetConfigPath`: the configuration file under the home directory. */
  function GetConfigPath(home: Option<string>): (r: Result<string, LoadError>)
    ensures home.None? ==> r == Err(NoHomeDir)
    ensures home.Some? && home.value != "" ==>
              r.Ok? && GoStrings.HasSuffix(r.value, "/.config/llm-cli/config.json")
  {
    if home.None? then Err(NoHomeDir)
    else
      var p := FilePaths.Join([home.value, ConfigDir, ConfigFile]);
      assert home.value != "" ==> GoStrings.HasSuffix(p, "/.config/llm-cli/config.json") by {
        if home.value != "" {
          ConfigPathSuffix(home.value);
        }
      }
      Ok(p)
  }

  lemma ConfigPathSuffix(home: string)
    requires home != ""
    ensures GoStrings.HasSuffix(FilePaths.Join([home, ConfigDir, ConfigFile]), "/.config/llm-cli/config.json")
  {
    var elems := [home, ConfigDir, ConfigFile];
    var tail := "/.config/llm-cli/config.json";
    assert FilePaths.NoDoubleSlash(tail);
    assert elems[1..] == [ConfigDir, ConfigFile];
    assert elems[2..] == [ConfigFile];
    assert GoStrings.Join(elems[1..], '/') == ConfigDir + "/" + ConfigFile;
    var joined := home + "/" + ".config" + "/" + "llm-cli/config.json";
    assert GoStrings.Join(elems, '/') == joined;
    assert joined == home + tail;
    CollapseKeepsTail(home, tail);
  }

  /** For a clean home directory the path is exactly
      `home + "/.config/llm-cli/config.json"`. */
  lemma ConfigPathExact(home: string)
    requires home != "" && FilePaths.SlashClean(home) && home[|home| - 1] != '/'
    ensures GetConfigPath(Some(home)) == Ok(home + "/.config/llm-cli/config.json")
  {
    var elems := [home, ConfigDir, ConfigFile];
    var tail := "/.config/llm-cli/config.json";
    assert FilePaths.NoDoubleSlash(tail);
    assert elems[1..] == [ConfigDir, ConfigFile];
    assert elems[2..] == [ConfigFile];
    assert GoStrings.Join(elems[1..], '/') == ConfigDir + "/" + ConfigFile;
    assert GoStrings.Join(elems, '/') == home + tail;
    FilePaths.NoDoubleSlashConcat(home, tail);
    FilePaths.CleanNoop(home + tail);
  }

  /** Collapsing separators never disturbs a clean tail that starts with one. */
  lemma {:induction false} CollapseKeepsTail(x: string, tail: string)
    requires |tail| >= 2 && tail[0] == '/' && tail[1] != '/' && FilePaths.NoDoubleSlash(tail)
    ensures GoStrings.HasSuffix(FilePaths.CollapseSlashes(x + tail), tail)
    decreases |x|
  {
    var s := x + tail;
    if |x| == 0 {
      assert s == tail;
      FilePaths.CollapseNoop(tail);
    } else {
      assert s[1..] == x[1..] + tail;
      CollapseKeepsTail(x[1..], tail);
    }
  }

  /** `ResolvePath`: home expansion of a leading `~`, then `filepath.Abs`. */
  function ResolvePath(p: string, home: Option<string>, workingDir: Option<string>)
    : (r: Result<string, FilePaths.PathError>)
    ensures GoStrings.HasPrefix(p, "~") && home.None? ==> r == Err(FilePaths.HomeUnavailable)
    ensures !GoStrings.HasPrefix(p, "~") ==> r == FilePaths.Abs(p, workingDir)
  {
    var expanded :- FilePaths.ExpandHome(p, home);
    FilePaths.Abs(expanded, workingDir)
  }

  /** With a clean absolute home directory, `~/rest` resolves to `home/rest`,
      independently of the working directory. */
  lemma ResolveHomeRelative(home: string, rest: string, workingDir: Option<string>)
    requires |home| > 1 && home[0] == '/' && FilePaths.SlashClean(home)
    requires rest != "" && FilePaths.SlashClean(rest) && rest[0] != '/'
    ensures ResolvePath("~/" + rest, Some(home), workingDir) == Ok(home + "/" + rest)
  {
    FilePaths.ExpandHomeSlash(home, rest);
    var e := home + "/" + rest;
    assert GoStrings.HasPrefix(e, "/");
    FilePaths.NoDoubleSlashConcat(home, "/");
    FilePaths.NoDoubleSlashConcat(home + "/", rest);
    assert e[|e| - 1] == rest[|rest| - 1];
    FilePaths.CleanNoop(e);
  }
}
