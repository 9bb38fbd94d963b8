/** The `profile add | remove | use | set` commands. Each one loads the
    configuration, checks its guards in the order the command does, and on
    success yields the configuration it saves; an error means nothing is saved. */
module ProfileCommands {
  import opened Wrappers
  import opened Config

  datatype CommandError =
    | LoadFailed(cause: LoadError)       // "loading config: …"
    | AlreadyExists(name: string)        // "profile '%s' already exists"
    | DefaultNotFound                    // "default profile not found"
    | CannotRemoveDefault                // "the 'default' profile cannot be removed"
    | ProfileNotFound(name: string)      // "profile '%s' not found"
    | ActiveProfileRemoval               // "cannot remove the currently active profile…"
    | ActiveProfileNotFound(name: string)  // "active profile '%s' not found"
    | UnknownKey(key: string)            // "unknown configuration key '%s'…"

  const DefaultName := "default"

  /** The shape every command keeps: a "default" profile exists and the
      current profile names an existing entry. */
  predicate WellFormed(c: Config) {
    DefaultName in c.profiles && c.currentProfile in c.profiles
  }

  function LoadForCommand(stored: StoredConfig): (r: Result<Config, CommandError>)
    ensures r.Err? <==> Load(stored).Err?
    ensures r.Err? ==> r.error == LoadFailed(Load(stored).error)
    ensures r.Ok? ==> r.value == Load(stored).value
  {
    match Load(stored)
    case Ok(c) => Ok(c)
    case Err(e) => Err(LoadFailed(e))
  }

  // ---------------------------------------------------------------------
  // profile add

  /** The map update of `addProfile`: a copy of "default" under a fresh name. */
  function AddToConfig(c: Config, name: string): (r: Result<Config, CommandError>)
    ensures name in c.profiles ==> r == Err(AlreadyExists(name))
    ensures name !in c.profiles && DefaultName !in c.profiles ==> r == Err(DefaultNotFound)
    ensures r.Ok? <==> name !in c.profiles && DefaultName in c.profiles
    ensures r.Ok? ==> && r.value.currentProfile == c.currentProfile
                      && r.value.profiles.Keys == c.profiles.Keys + {name}
                      && r.value.profiles[name] == c.profiles[DefaultName]
                      && forall n :: n in c.profiles ==> r.value.profiles[n] == c.profiles[n]
  {
    if name in c.profiles then Err(AlreadyExists(name))
    else if DefaultName !in c.profiles then Err(DefaultNotFound)
    else Ok(c.(profiles := c.profiles[name := c.profiles[DefaultName]]))
  }

  /** `addProfile`. */
  function AddProfile(stored: StoredConfig, name: string): (r: Result<Config, CommandError>)
    ensures Load(stored).Err? ==> r == Err(LoadFailed(Load(stored).error))
    ensures Load(stored).Ok? ==> r == AddToConfig(Load(stored).value, name)
  {
    var c :- LoadForCommand(stored);
    AddToConfig(c, name)
  }

  // ---------------------------------------------------------------------
  // profile remove

  /** The map update of `removeProfile`, after its "default" check. */
  function RemoveFromConfig(c: Config, name: string): (r: Result<Config, CommandError>)
    ensures name !in c.profiles ==> r == Err(ProfileNotFound(name))
    ensures name in c.profiles && c.currentProfile == name ==> r == Err(ActiveProfileRemoval)
    ensures r.Ok? <==> name in c.profiles && c.currentProfile != name
    ensures r.Ok? ==> && r.value.currentProfile == c.currentProfile
                      && r.value.profiles.Keys == c.profiles.Keys - {name}
                      && forall n :: n in r.value.profiles ==> r.value.profiles[n] == c.profiles[n]
  {
    if name !in c.profiles then Err(ProfileNotFound(name))
    else if c.currentProfile == name then Err(ActiveProfileRemoval)
    else Ok(c.(profiles := c.profiles - {name}))
  }

  /** `removeProfile`: the name "default" is refused before the configuration
      is even loaded, so that answer does not depend on the stored file. */
  function RemoveProfile(stored: StoredConfig, name: string): (r: Result<Config, CommandError>)
    ensures name == DefaultName ==> r == Err(CannotRemoveDefault)
    ensures name != DefaultName && Load(stored).Err? ==> r == Err(LoadFailed(Load(stored).error))
    ensures name != DefaultName && Load(stored).Ok? ==> r == RemoveFromConfig(Load(stored).value, name)
  {
    if name == DefaultName then Err(CannotRemoveDefault)
    else
      var c :- LoadForCommand(stored);
      RemoveFromConfig(c, name)
  }

  // ---------------------------------------------------------------------
  // profile use

  /** The update of `useProfile`. */
  function UseInConfig(c: Config, name: string): (r: Result<Config, CommandError>)
    ensures name !in c.profiles ==> r == Err(ProfileNotFound(name))
    ensures r.Ok? <==> name in c.profiles
    ensures r.Ok? ==> && r.value.profiles == c.profiles
                      && r.value.currentProfile == name
                      && r.value.currentProfile in r.value.profiles
  {
    if name !in c.profiles then Err(ProfileNotFound(name))
    else Ok(c.(currentProfile := name))
  }

  /** `useProfile`. */
  function UseProfile(stored: StoredConfig, name: string): (r: Result<Config, CommandError>)
    ensures Load(stored).Err? ==> r == Err(LoadFailed(Load(stored).error))
    ensures Load(stored).Ok? ==> r == UseInConfig(Load(stored).value, name)
  {
    var c :- LoadForCommand(stored);
    UseInConfig(c, name)
  }

  // ---------------------------------------------------------------------
  // profile set

  /** The seven keys `setProfileValue` accepts. */
  datatype Key = Model | Provider | Endpoint | ApiKey | AwsRegion | AwsAccessKeyId | AwsSecretAccessKey

  /** The spelling of each key on the command line. */
  function KeyName(k: Key): string {
    match k
    case Model => "model"
    case Provider => "provider"
    case Endpoint => "endpoint"
    case ApiKey => "api_key"
    case AwsRegion => "aws_region"
    case AwsAccessKeyId => "aws_access_key_id"
    case AwsSecretAccessKey => "aws_secret_access_key"
  }

  /** The `switch key` of `setProfileValue`: a recognised spelling, or none. */
  function ParseKey(s: string): (r: Option<Key>)
    ensures r.Some? ==> KeyName(r.value) == s
  {
    if s == "model" then Some(Model)
    else if s == "provider" then Some(Provider)
    else if s == "endpoint" then Some(Endpoint)
    else if s == "api_key" then Some(ApiKey)
    else if s == "aws_region" then Some(AwsRegion)
    else if s == "aws_access_key_id" then Some(AwsAccessKeyId)
    else if s == "aws_secret_access_key" then Some(AwsSecretAccessKey)
    else None
  }

  /** Every key's spelling parses back to that key, so `ParseKey` recognises
      exactly the seven spellings. */
  lemma ParseKeyName(k: Key)
    ensures ParseKey(KeyName(k)) == Some(k)
  {
  }

  /** The profile field a key names. */
  function Get(p: Profile, k: Key): string {
    match k
    case Model => p.model
    case Provider => p.provider
    case Endpoint => p.endpoint
    case ApiKey => p.apiKey
    case AwsRegion => p.awsRegion
    case AwsAccessKeyId => p.awsAccessKeyId
    case AwsSecretAccessKey => p.awsSecretAccessKey
  }

  /** The profile fields no key reaches: project, location, credentials file
      and limits. */
  predicate SameUnsettable(p: Profile, q: Profile) {
    && p.projectId == q.projectId && p.location == q.location
    && p.credentialsFile == q.credentialsFile && p.limits == q.limits
  }

  /** One case of the `switch`: sets the field `k` names and nothing else. */
  function SetField(p: Profile, k: Key, v: string): (r: Profile)
    ensures Get(r, k) == v
    ensures forall k' :: k' != k ==> Get(r, k') == Get(p, k')
    ensures SameUnsettable(r, p)
  {
    match k
    case Model => p.(model := v)
    case Provider => p.(provider := v)
    case Endpoint => p.(endpoint := v)
    case ApiKey => p.(apiKey := v)
    case AwsRegion => p.(awsRegion := v)
    case AwsAccessKeyId => p.(awsAccessKeyId := v)
    case AwsSecretAccessKey => p.(awsSecretAccessKey := v)
  }

  /** The key-addressed fields together with the unsettable ones determine a
      profile; so `SetField` is the one profile with the new value at `k` that
      agrees with `p` everywhere else. */
  lemma SetFieldCharacterised(p: Profile, k: Key, v: string, q: Profile)
    ensures q == SetField(p, k, v) <==>
              Get(q, k) == v && (forall k' :: k' != k ==> Get(q, k') == Get(p, k')) && SameUnsettable(q, p)
  {
    if Get(q, k) == v && (forall k' :: k' != k ==> Get(q, k') == Get(p, k')) && SameUnsettable(q, p) {
      var r := SetField(p, k, v);
      forall k' ensures Get(q, k') == Get(r, k') {
      }
      assert Get(q, Model) == Get(r, Model) && Get(q, Provider) == Get(r, Provider);
      assert Get(q, Endpoint) == Get(r, Endpoint) && Get(q, ApiKey) == Get(r, ApiKey);
      assert Get(q, AwsRegion) == Get(r, AwsRegion) && Get(q, AwsAccessKeyId) == Get(r, AwsAccessKeyId);
      assert Get(q, AwsSecretAccessKey) == Get(r, AwsSecretAccessKey);
    }
  }

  /** The update of `setProfileValue`: the active profile is looked up first,
      then the key; only the active entry changes. */
  function SetInConfig(c: Config, key: string, value: string): (r: Result<Config, CommandError>)
    ensures c.currentProfile !in c.profiles ==> r == Err(ActiveProfileNotFound(c.currentProfile))
    ensures c.currentProfile in c.profiles && ParseKey(key).None? ==> r == Err(UnknownKey(key))
    ensures r.Ok? <==> c.currentProfile in c.profiles && ParseKey(key).Some?
    ensures r.Ok? ==> && r.value.currentProfile == c.currentProfile
                      && r.value.profiles.Keys == c.profiles.Keys
                      && (forall n :: n in c.profiles && n != c.currentProfile ==>
                            r.value.profiles[n] == c.profiles[n])
                      && Get(r.value.profiles[c.currentProfile], ParseKey(key).value) == value
                      && SameUnsettable(r.value.profiles[c.currentProfile], c.profiles[c.currentProfile])
  {
    if c.currentProfile !in c.profiles then Err(ActiveProfileNotFound(c.currentProfile))
    else
      match ParseKey(key)
      case None => Err(UnknownKey(key))
      case Some(k) =>
        Ok(c.(profiles := c.profiles[c.currentProfile := SetField(c.profiles[c.currentProfile], k, value)]))
  }

  /** `setProfileValue`. */
  function SetProfileValue(stored: StoredConfig, key: string, value: string): (r: Result<Config, CommandError>)
    ensures Load(stored).Err? ==> r == Err(LoadFailed(Load(stored).error))
    ensures Load(stored).Ok? ==> r == SetInConfig(Load(stored).value, key, value)
  {
    var c :- LoadForCommand(stored);
    SetInConfig(c, key, value)
  }

  // ---------------------------------------------------------------------
  // Properties relating the commands

  /** Every command keeps a well-formed configuration well-formed. */
  lemma CommandsPreserveWellFormed(c: Config, name: string, key: string, value: string)
    requires WellFormed(c)
    ensures AddToConfig(c, name).Ok? ==> WellFormed(AddToConfig(c, name).value)
    ensures name != DefaultName && RemoveFromConfig(c, name).Ok? ==> WellFormed(RemoveFromConfig(c, name).value)
    ensures UseInConfig(c, name).Ok? ==> WellFormed(UseInConfig(c, name).value)
    ensures SetInConfig(c, key, value).Ok? ==> WellFormed(SetInConfig(c, key, value).value)
  {
  }

  /** A fresh installation is well-formed. */
  lemma FreshInstallWellFormed()
    ensures WellFormed(Load(NotExist).value)
  {
  }

  /** Removing what was just added gives the original configuration back. */
  lemma AddRemoveRoundTrip(c: Config, name: string)
    requires WellFormed(c) && name !in c.profiles
    ensures AddToConfig(c, name).Ok?
    ensures RemoveFromConfig(AddToConfig(c, name).value, name) == Ok(c)
  {
    var added := AddToConfig(c, name).value;
    assert added.profiles - {name} == c.profiles;
  }

  /** Setting the same key twice keeps only the second value. */
  lemma SetLastWriteWins(c: Config, key: string, v1: string, v2: string)
    requires SetInConfig(c, key, v1).Ok?
    ensures SetInConfig(SetInConfig(c, key, v1).value, key, v2) == SetInConfig(c, key, v2)
  {
    var k := ParseKey(key).value;
    var p := c.profiles[c.currentProfile];
    var q := SetField(SetField(p, k, v1), k, v2);
    SetFieldCharacterised(p, k, v2, q);
    assert q == SetField(p, k, v2);
    var c1 := SetInConfig(c, key, v1).value;
    assert c1.profiles[c.currentProfile := q] == c.profiles[c.currentProfile := q];
  }

  /** Switching back and forth: using a profile and then the one that was
      active before restores the configuration. */
  lemma UseRoundTrip(c: Config, name: string)
    requires WellFormed(c) && name in c.profiles
    ensures UseInConfig(UseInConfig(c, name).value, c.currentProfile) == Ok(c)
  {
  }

  /** The configuration the profile command tests save before each test:
      "default" (ollama/llama3) is current, beside "existing_profile"
      (openai/gpt-4); neither names any limits. */
  const TestFixture := Decoded(Config(DefaultName, map[
    DefaultName := EmptyProfile.(provider := "ollama", model := "llama3"),
    "existing_profile" := EmptyProfile.(provider := "openai", model := "gpt-4")]))

  /** The fixture as the commands load it: both profiles, "default" current. */
  lemma TestFixtureLoaded()
    ensures Load(TestFixture).Ok?
    ensures var c := Load(TestFixture).value;
            && c.currentProfile == DefaultName
            && c.profiles.Keys == {DefaultName, "existing_profile"}
            && c.profiles[DefaultName].provider == "ollama"
  {
    var c := Load(TestFixture).value;
    assert SameExceptLimits(c.profiles[DefaultName], TestFixture.config.profiles[DefaultName]);
  }

  /** A saved configuration read back through `Load` keeps every profile's
      provider and model, and its current profile. */
  lemma ReloadKeeps(c: Config, name: string)
    requires name in c.profiles
    ensures Load(Decoded(c)).Ok?
    ensures var d := Load(Decoded(c)).value;
            && d.currentProfile == c.currentProfile && name in d.profiles
            && d.profiles[name].provider == c.profiles[name].provider
            && d.profiles[name].model == c.profiles[name].model
  {
    assert SameExceptLimits(Load(Decoded(c)).value.profiles[name], c.profiles[name]);
  }

  /** The add test: a new profile copies "default", and an existing name is
      refused. */
  lemma TestFixtureAdd()
    ensures AddProfile(TestFixture, "new_profile").Ok?
    ensures Load(Decoded(AddProfile(TestFixture, "new_profile").value)).Ok?
    ensures var c := Load(Decoded(AddProfile(TestFixture, "new_profile").value)).value;
            "new_profile" in c.profiles && c.profiles["new_profile"].provider == "ollama"
    ensures AddProfile(TestFixture, DefaultName) == Err(AlreadyExists(DefaultName))
  {
    TestFixtureLoaded();
    ReloadKeeps(AddProfile(TestFixture, "new_profile").value, "new_profile");
  }

  /** The use test: switching to an existing profile makes it current, and an
      unknown one is refused. */
  lemma TestFixtureUse()
    ensures UseProfile(TestFixture, "existing_profile").Ok?
    ensures Load(Decoded(UseProfile(TestFixture, "existing_profile").value)).Ok?
    ensures Load(Decoded(UseProfile(TestFixture, "existing_profile").value)).value.currentProfile == "existing_profile"
    ensures UseProfile(TestFixture, "non_existent_profile") == Err(ProfileNotFound("non_existent_profile"))
  {
    TestFixtureLoaded();
  }

  /** The set test: the model of the current profile, "default", changes, and
      an unknown key is refused. */
  lemma TestFixtureSet()
    ensures SetProfileValue(TestFixture, "model", "test-model-123").Ok?
    ensures Load(Decoded(SetProfileValue(TestFixture, "model", "test-model-123").value)).Ok?
    ensures var c := Load(Decoded(SetProfileValue(TestFixture, "model", "test-model-123").value)).value;
            DefaultName in c.profiles && c.profiles[DefaultName].model == "test-model-123"
    ensures SetProfileValue(TestFixture, "invalid_key", "test_value") == Err(UnknownKey("invalid_key"))
  {
    TestFixtureLoaded();
    ParseKeyName(Model);
    var c := SetProfileValue(TestFixture, "model", "test-model-123").value;
    assert Get(c.profiles[DefaultName], Model) == "test-model-123";
    ReloadKeeps(c, DefaultName);
    InvalidKeyUnknown();
  }

  lemma InvalidKeyUnknown()
    ensures ParseKey("invalid_key") == None
  {
    var s := "invalid_key";
    assert s[0] == 'i' && |s| == 11;
  }

  /** The remove test: a profile that is not active goes, and "default" is
      refused. */
  lemma TestFixtureRemove()
    ensures RemoveProfile(TestFixture, "existing_profile").Ok?
    ensures Load(Decoded(RemoveProfile(TestFixture, "existing_profile").value)).Ok?
    ensures "existing_profile" !in Load(Decoded(RemoveProfile(TestFixture, "existing_profile").value)).value.profiles
    ensures RemoveProfile(TestFixture, DefaultName) == Err(CannotRemoveDefault)
  {
    TestFixtureLoaded();
  }
}
