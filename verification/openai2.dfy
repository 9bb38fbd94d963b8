/** The `openai2` provider (sub-package `openai2.Provider` and the flat
    `llm.OpenAI2Provider`, whose logic is the same): an OpenAI-compatible
    provider whose `model` setting is a comma-separated priority list, each
    entry a model name or `auto`, resolved against the server's model list
    before every request. */
module OpenAI2 {
  import opened Wrappers
  import opened Llm
  import opened OpenAI
  import Config
  import GoStrings

  // ---------------------------------------------------------------------
  // The model list

  const ChatSuffix := "/v1/chat/completions"
  const VersionSuffix := "/v1"
  const ModelsSuffix := "/v1/models"

  /** The models URL derived from an endpoint: one trailing
      `/v1/chat/completions` and then one trailing `/v1` are removed, and
      `/v1/models` is appended. */
  function ModelsUrl(endpoint: string): (r: string)
    ensures GoStrings.HasSuffix(r, ModelsSuffix)
  {
    GoStrings.TrimSuffix(GoStrings.TrimSuffix(endpoint, ChatSuffix), VersionSuffix) + ModelsSuffix
  }

  /** A base URL, given bare, with `/v1`, or as the full chat endpoint, lists
      its models at the same place. */
  lemma ModelsUrlOfBase(base: string)
    requires !GoStrings.HasSuffix(base, VersionSuffix) && !GoStrings.HasSuffix(base, ChatSuffix)
    ensures ModelsUrl(base) == base + ModelsSuffix
    ensures ModelsUrl(base + VersionSuffix) == base + ModelsSuffix
    ensures ModelsUrl(base + ChatSuffix) == base + ModelsSuffix
  {
    var v := base + VersionSuffix;
    assert v[|v| - |VersionSuffix|..] == VersionSuffix;
    assert v[..|v| - |VersionSuffix|] == base;
    assert v[|v| - 1] != ChatSuffix[|ChatSuffix| - 1];
    assert !GoStrings.HasSuffix(v, ChatSuffix);
    var c := base + ChatSuffix;
    assert c[|c| - |ChatSuffix|..] == ChatSuffix;
    assert c[..|c| - |ChatSuffix|] == base;
  }

  /** The request for the model list. */
  datatype ModelsRequest = ModelsRequest(url: string, authorization: Option<string>)

  /** The decoded model-list body: the `id` of each entry of `data`. */
  datatype ModelsBody = ModelsUndecodable | ModelList(ids: seq<string>)

  /** ASCII upper-case letters in lower case, the rest unchanged. */
  function LowerAscii(c: char): (r: char)
    ensures 'A' <= c <= 'Z' ==> 'a' <= r <= 'z'
    ensures !('A' <= c <= 'Z') ==> r == c
  {
    if 'A' <= c <= 'Z' then (c as int + 32) as char else c
  }

  /** `s` starts with the lower-case `prefix`, up to the case of ASCII letters. */
  predicate HasPrefixFold(s: string, prefix: string) {
    |prefix| <= |s| && forall i :: 0 <= i < |prefix| ==> LowerAscii(s[i]) == prefix[i]
  }

  /** Go's HTTP client only sends requests whose URL names the `http` or
      `https` scheme; any other URL fails before anything is sent. `url.Parse`
      lower-cases the scheme, so its letters may be written in either case. */
  predicate HasScheme(url: string) {
    HasPrefixFold(url, "http://") || HasPrefixFold(url, "https://")
  }

  /** A scheme written in upper case is still `http`. */
  lemma UpperCaseScheme()
    ensures HasScheme("HTTP://localhost:1234/v1/models")
  {
    var u := "HTTP://localhost:1234/v1/models";
    assert LowerAscii(u[0]) == 'h' && LowerAscii(u[1]) == 't' && LowerAscii(u[2]) == 't' && LowerAscii(u[3]) == 'p';
  }

  /** `getAvailableModels`: the model identifiers, or `None` for any of its
      errors (the URL does not parse, the key cannot be loaded, the request
      fails, the status is not 200, the body cannot be decoded). */
  function FetchModels(url: string, key: Result<string, KeyFileError>, parses: UrlParser,
                       exchange: ModelsRequest -> Http<ModelsBody>)
    : (r: Option<seq<string>>)
    ensures !parses(url) || key.Err? || !HasScheme(url) ==> r.None?
    ensures r.Some? <==> && parses(url) && key.Ok? && HasScheme(url)
                         && var h := exchange(ModelsRequest(url, Authorization(key.value)));
                            h.Answered? && h.status == StatusOK && h.body.ModelList?
    ensures r.Some? ==> r.value == exchange(ModelsRequest(url, Authorization(key.value))).body.ids
  {
    if !parses(url) then None
    else match key
    case Err(_) => None
    case Ok(k) =>
      if !HasScheme(url) then None
      else match exchange(ModelsRequest(url, Authorization(k)))
        case Unreachable(_) => None
        case Answered(status, _, body) =>
          if status != StatusOK then None
          else match body
            case ModelsUndecodable => None
            case ModelList(ids) => Some(ids)
  }

  // ---------------------------------------------------------------------
  // Resolution

  const Auto := "auto"

  /** The entries of the priority list, each with surrounding white space
      removed. */
  function Candidates(setting: string): (r: seq<string>)
    ensures |r| == |GoStrings.Split(setting, ',')|
    ensures forall i :: 0 <= i < |r| ==> r[i] == GoStrings.TrimSpace(GoStrings.Split(setting, ',')[i])
  {
    var parts := GoStrings.Split(setting, ',');
    seq(|parts|, i requires 0 <= i < |parts| => GoStrings.TrimSpace(parts[i]))
  }

  /** A candidate the listed models satisfy: `auto` when the list is
      non-empty, a name when it is listed. Empty entries never resolve. */
  predicate Resolves(candidate: string, available: seq<string>) {
    candidate != "" && (if candidate == Auto then |available| > 0 else candidate in available)
  }

  /** The model a resolving candidate stands for. */
  function Pick(candidate: string, available: seq<string>): (r: string)
    requires Resolves(candidate, available)
    ensures r in available
  {
    if candidate == Auto then available[0] else candidate
  }

  /** The first resolving candidate at or after `from`. */
  function FirstResolving(candidates: seq<string>, available: seq<string>, from: nat): (r: Option<nat>)
    requires from <= |candidates|
    ensures r.Some? ==> from <= r.value < |candidates| && Resolves(candidates[r.value], available)
    ensures r.Some? ==> forall j :: from <= j < r.value ==> !Resolves(candidates[j], available)
    ensures r.None? ==> forall j :: from <= j < |candidates| ==> !Resolves(candidates[j], available)
    decreases |candidates| - from
  {
    if from == |candidates| then None
    else if Resolves(candidates[from], available) then Some(from)
    else FirstResolving(candidates, available, from + 1)
  }

  /** A candidate that names a model. */
  predicate Named(candidate: string) {
    candidate != "" && candidate != Auto
  }

  /** The first candidate at or after `from` that names a model. */
  function FirstNamed(candidates: seq<string>, from: nat): (r: Option<nat>)
    requires from <= |candidates|
    ensures r.Some? ==> from <= r.value < |candidates| && Named(candidates[r.value])
    ensures r.Some? ==> forall j :: from <= j < r.value ==> !Named(candidates[j])
    ensures r.None? ==> forall j :: from <= j < |candidates| ==> !Named(candidates[j])
    decreases |candidates| - from
  {
    if from == |candidates| then None
    else if Named(candidates[from]) then Some(from)
    else FirstNamed(candidates, from + 1)
  }

  /** The priority rules over a candidate list: with a model list, the
      first candidate that resolves, in list order; without one, the first
      named candidate, unchecked. */
  function ResolveCandidates(candidates: seq<string>, fetched: Option<seq<string>>): (r: Option<string>)
    ensures fetched.Some? ==>
              (r.Some? <==> exists i :: 0 <= i < |candidates| && Resolves(candidates[i], fetched.value))
    ensures fetched.Some? && r.Some? ==>
              && r.value in fetched.value
              && exists i :: && 0 <= i < |candidates| && Resolves(candidates[i], fetched.value)
                             && r.value == Pick(candidates[i], fetched.value)
                             && forall j :: 0 <= j < i ==> !Resolves(candidates[j], fetched.value)
    ensures fetched.None? ==> (r.Some? <==> exists i :: 0 <= i < |candidates| && Named(candidates[i]))
    ensures fetched.None? && r.Some? ==>
              exists i :: && 0 <= i < |candidates| && r.value == candidates[i] && Named(r.value)
                          && forall j :: 0 <= j < i ==> !Named(candidates[j])
  {
    match fetched
    case Some(available) =>
      (match FirstResolving(candidates, available, 0)
       case Some(i) => Some(Pick(candidates[i], available))
       case None => None)
    case None =>
      (match FirstNamed(candidates, 0)
       case Some(i) => Some(candidates[i])
       case None => None)
  }

  /** `resolveModel`, given the outcome of the model-list fetch. */
  function ResolveModel(setting: string, fetched: Option<seq<string>>): (r: Result<string, Error>)
    ensures r.Err? <==> ResolveCandidates(Candidates(setting), fetched).None?
    ensures r.Err? ==> r.error == ModelUnresolvable(setting)
    ensures r.Ok? ==> r.value == ResolveCandidates(Candidates(setting), fetched).value
  {
    match ResolveCandidates(Candidates(setting), fetched)
    case Some(m) => Ok(m)
    case None => Err(ModelUnresolvable(setting))
  }

  /** Resolution never invents a model: the result is a listed model, or,
      without a list, one of the names the setting spells out. */
  lemma ResolvedModelOrigin(setting: string, fetched: Option<seq<string>>)
    requires ResolveModel(setting, fetched).Ok?
    ensures fetched.Some? ==> ResolveModel(setting, fetched).value in fetched.value
    ensures fetched.None? ==> ResolveModel(setting, fetched).value in Candidates(setting)
  {
    var c := Candidates(setting);
    if fetched.None? {
      var i :| 0 <= i < |c| && ResolveModel(setting, fetched).value == c[i];
    }
  }

  /** A setting without commas is a single candidate. */
  lemma CandidatesSingle(x: string)
    requires ',' !in x
    ensures Candidates(x) == [GoStrings.TrimSpace(x)]
  {
    GoStrings.SplitNoSeparator(x, ',');
    var c := Candidates(x);
    assert |c| == 1 && c[0] == GoStrings.TrimSpace(x);
  }

  /** `x,y` without further commas is two candidates. */
  lemma CandidatesPair(x: string, y: string)
    requires ',' !in x && ',' !in y
    ensures Candidates(x + "," + y) == [GoStrings.TrimSpace(x), GoStrings.TrimSpace(y)]
  {
    SplitPair(x, y);
    var c := Candidates(x + "," + y);
    assert |c| == 2;
  }

  lemma SplitPair(x: string, y: string)
    requires ',' !in x && ',' !in y
    ensures GoStrings.Split(x + "," + y, ',') == [x, y]
  {
    GoStrings.SplitNoSeparator(y, ',');
    GoStrings.SplitAfterPiece(x, y, ',');
  }

  /** A setting of one name without commas or surrounding spaces is that
      name alone. */
  lemma PlainSetting(x: string)
    requires ',' !in x && x != "" && !GoStrings.IsSpace(x[0]) && !GoStrings.IsSpace(x[|x| - 1])
    ensures Candidates(x) == [x]
  {
    CandidatesSingle(x);
    TrimSpaceNoop(x);
  }

  /** A candidate without surrounding spaces is taken as written. */
  lemma TrimSpaceNoop(s: string)
    requires s != "" && !GoStrings.IsSpace(s[0]) && !GoStrings.IsSpace(s[|s| - 1])
    ensures GoStrings.TrimSpace(s) == s
  {
    GoStrings.TrimSpaceFixed(s);
  }

  lemma TrimLeadingBlank(s: string)
    requires s != "" && !GoStrings.IsSpace(s[0]) && !GoStrings.IsSpace(s[|s| - 1])
    ensures GoStrings.TrimSpace(" " + s) == s
  {
    var t := " " + s;
    assert t[1..] == s;
    assert GoStrings.TrimLeftSpace(t) == GoStrings.TrimLeftSpace(s) == s;
  }

  /** A named model that is not listed falls through to `auto`. */
  lemma UnlistedThenAuto(available: seq<string>)
    requires |available| > 0 && "a" !in available
    ensures ResolveModel("a,auto", Some(available)) == Ok(available[0])
  {
    SettingUnlistedThenAuto();
    ResolvesUnlistedThenAuto(available);
  }

  /** Candidates are tried in order and blanks around them are ignored. */
  lemma ListedSecondChoice(available: seq<string>)
    requires "b" in available && "a" !in available
    ensures ResolveModel("a, b", Some(available)) == Ok("b")
  {
    SettingListedSecondChoice();
    ResolvesListedSecondChoice(available);
  }

  /** Without a model list `auto` is passed over for the next named model. */
  lemma AutoSkippedWithoutList()
    ensures ResolveModel("auto, b", None) == Ok("b")
  {
    SettingAutoSkipped();
    ResolvesAutoSkipped();
  }

  /** Without a model list `auto` alone cannot resolve. */
  lemma AutoAloneWithoutList()
    ensures ResolveModel(Auto, None) == Err(ModelUnresolvable(Auto))
  {
    SettingAutoAlone();
    ResolvesAutoAlone();
  }

  // The candidate lists of the settings above, and how they resolve. The
  // `Trimmed…`, `Setting…`, `Split…` and `Resolves…` lemmas are steps of the
  // worked examples only: they spell out the splitting and trimming of each
  // literal setting so that the examples close cheaply.

  lemma TrimmedAuto()
    ensures GoStrings.TrimSpace(Auto) == Auto
  {
    TrimSpaceNoop(Auto);
  }

  lemma SettingUnlistedThenAuto()
    ensures Candidates("a,auto") == ["a", Auto]
  {
    TrimmedA();
    TrimmedAuto();
    SplitUnlistedThenAuto();
  }

  lemma SplitUnlistedThenAuto()
    ensures Candidates("a,auto") == [GoStrings.TrimSpace("a"), GoStrings.TrimSpace(Auto)]
  {
    assert "a,auto" == "a" + "," + Auto;
    CandidatesPair("a", Auto);
  }

  lemma SettingListedSecondChoice()
    ensures Candidates("a, b") == ["a", "b"]
  {
    TrimmedA();
    TrimmedBlankB();
    SplitListedSecondChoice();
  }

  lemma TrimmedA()
    ensures GoStrings.TrimSpace("a") == "a"
  {
    TrimSpaceNoop("a");
  }

  lemma SplitListedSecondChoice()
    ensures Candidates("a, b") == [GoStrings.TrimSpace("a"), GoStrings.TrimSpace(" b")]
  {
    assert "a, b" == "a" + "," + " b";
    CandidatesPair("a", " b");
  }

  lemma SettingAutoSkipped()
    ensures Candidates("auto, b") == [Auto, "b"]
  {
    TrimmedAuto();
    TrimmedBlankB();
    SplitAutoSkipped();
  }

  lemma TrimmedBlankB()
    ensures GoStrings.TrimSpace(" b") == "b"
  {
    TrimLeadingBlank("b");
  }

  lemma SplitAutoSkipped()
    ensures Candidates("auto, b") == [GoStrings.TrimSpace(Auto), GoStrings.TrimSpace(" b")]
  {
    assert "auto, b" == Auto + "," + " b";
    CandidatesPair(Auto, " b");
  }

  lemma SettingAutoAlone()
    ensures Candidates(Auto) == [Auto]
  {
    TrimmedAuto();
    SplitAutoAlone();
  }

  lemma SplitAutoAlone()
    ensures Candidates(Auto) == [GoStrings.TrimSpace(Auto)]
  {
    CandidatesSingle(Auto);
  }

  lemma ResolvesUnlistedThenAuto(available: seq<string>)
    requires |available| > 0 && "a" !in available
    ensures ResolveCandidates(["a", Auto], Some(available)) == Some(available[0])
  {
    assert FirstResolving(["a", Auto], available, 1) == Some(1);
  }

  lemma ResolvesListedSecondChoice(available: seq<string>)
    requires "b" in available && "a" !in available
    ensures ResolveCandidates(["a", "b"], Some(available)) == Some("b")
  {
    assert FirstResolving(["a", "b"], available, 1) == Some(1);
  }

  lemma ResolvesAutoSkipped()
    ensures ResolveCandidates([Auto, "b"], None) == Some("b")
  {
    assert FirstNamed([Auto, "b"], 1) == Some(1);
  }

  lemma ResolvesAutoAlone()
    ensures ResolveCandidates([Auto], None) == None
  {
    assert FirstNamed([Auto], 1) == None;
  }

  /** A fetched but empty model list resolves nothing. */
  lemma EmptyListResolvesNothing(setting: string)
    ensures ResolveModel(setting, Some([])).Err?
  {
  }

  // ---------------------------------------------------------------------
  // The model-list URL

  /** The models URL as the provider derives it: from the profile's own
      endpoint, even when that is empty and chat requests go to the default
      endpoint. */
  function ModelsUrlAsWritten(p: Config.Profile): (r: string)
    ensures p.endpoint == "" ==> r == ModelsSuffix
  {
    ModelsUrl(p.endpoint)
  }

  /** With no endpoint in the profile the as-written models URL has no
      scheme, so the list is never fetched and `auto` alone can never resolve,
      whatever the server offers. */
  lemma EmptyEndpointNeverLists(p: Config.Profile, key: Result<string, KeyFileError>, parses: UrlParser,
                                exchange: ModelsRequest -> Http<ModelsBody>)
    requires p.endpoint == ""
    ensures FetchModels(ModelsUrlAsWritten(p), key, parses, exchange).None?
    ensures ResolveModel(Auto, FetchModels(ModelsUrlAsWritten(p), key, parses, exchange)) == Err(ModelUnresolvable(Auto))
  {
    ModelsSuffixHasNoScheme();
    AutoAloneWithoutList();
  }

  /** The models URL derived from the endpoint chat requests actually use. */
  function ModelsUrlFor(p: Config.Profile): (r: string)
    ensures GoStrings.HasSuffix(r, ModelsSuffix)
  {
    ModelsUrl(Endpoint(p))
  }

  lemma ModelsSuffixHasNoScheme()
    ensures !HasScheme(ModelsSuffix)
  {
    assert ModelsSuffix[0] != 'h';
  }

  /** The corrected URL lists the models of the server that answers the
      chat requests: with no endpoint, the default API's. */
  lemma ModelsUrlForDefault(p: Config.Profile)
    requires p.endpoint == ""
    ensures ModelsUrlFor(p) == "https://api.openai.com/v1/models"
    ensures HasScheme(ModelsUrlFor(p))
  {
    DefaultModelsUrl();
    DefaultModelsUrlHasScheme();
  }

  lemma DefaultModelsUrl()
    ensures ModelsUrl(DefaultEndpoint) == "https://api.openai.com/v1/models"
  {
    DefaultEndpointSplit();
    DefaultBaseNoSuffix();
    ModelsUrlOfBase(DefaultBase);
    DefaultModelsJoin();
  }

  /** The host part of the default endpoint. */
  const DefaultBase := "https://api.openai.com"

  lemma DefaultEndpointSplit()
    ensures DefaultEndpoint == DefaultBase + ChatSuffix
  {
  }

  lemma DefaultBaseNoSuffix()
    ensures !GoStrings.HasSuffix(DefaultBase, VersionSuffix) && !GoStrings.HasSuffix(DefaultBase, ChatSuffix)
  {
    assert |DefaultBase| == 22 && DefaultBase[21] == 'm';
    NoSuffixByLastChar(DefaultBase, VersionSuffix);
    NoSuffixByLastChar(DefaultBase, ChatSuffix);
  }

  lemma DefaultModelsJoin()
    ensures DefaultBase + ModelsSuffix == "https://api.openai.com/v1/models"
  {
  }

  lemma NoSuffixByLastChar(s: string, suffix: string)
    requires |s| > 0 && |suffix| > 0 && s[|s| - 1] != suffix[|suffix| - 1]
    ensures !GoStrings.HasSuffix(s, suffix)
  {
    if |suffix| <= |s| {
      assert s[|s| - |suffix|..][|suffix| - 1] == s[|s| - 1];
    }
  }

  lemma DefaultModelsUrlHasScheme()
    ensures HasScheme("https://api.openai.com/v1/models")
  {
    var u := "https://api.openai.com/v1/models";
    assert u[..8] == "https://";
  }


  /** The corrected and the as-written URL coincide whenever the profile
      names an endpoint. */
  lemma ModelsUrlForAgrees(p: Config.Profile)
    requires p.endpoint != ""
    ensures ModelsUrlFor(p) == ModelsUrlAsWritten(p)
  {
  }

  // ---------------------------------------------------------------------
  // Requests

  /** `getAPIKey`: the credentials file's key when a file is named, else the
      inline key. */
  function ApiKey(p: Config.Profile, host: Host): (r: Result<string, KeyFileError>)
    ensures p.credentialsFile == "" ==> r == Ok(p.apiKey)
    ensures p.credentialsFile != "" ==> r == LoadKeyFile(p.credentialsFile, host)
  {
    if p.credentialsFile != "" then LoadKeyFile(p.credentialsFile, host) else Ok(p.apiKey)
  }

  /** `resolveModel` as `Chat` calls it: the model list is fetched from the
      as-written URL (`ModelsUrlAsWritten`), so with no endpoint in the
      profile, or a key that cannot be loaded, resolution never sees a list. */
  function RequestModel(p: Config.Profile, host: Host, parses: UrlParser, models: ModelsRequest -> Http<ModelsBody>)
    : (r: Result<string, Error>)
    ensures p.endpoint == "" || ApiKey(p, host).Err? ==> r == ResolveModel(p.model, None)
    ensures r.Err? ==> r.error == ModelUnresolvable(p.model)
    ensures r.Ok? ==> var fetched := FetchModels(ModelsUrlAsWritten(p), ApiKey(p, host), parses, models);
                      && (fetched.Some? ==> r.value in fetched.value)
                      && (fetched.None? ==> r.value in Candidates(p.model))
  {
    ModelsSuffixHasNoScheme();
    var fetched := FetchModels(ModelsUrlAsWritten(p), ApiKey(p, host), parses, models);
    var r := ResolveModel(p.model, fetched);
    if r.Ok? then ResolvedModelOrigin(p.model, fetched); r else r
  }

  /** The corrected resolution: the model list is fetched from the server
      that answers the chat requests (`ModelsUrlFor`). It differs from the
      written one only when the profile names no endpoint. */
  function RequestModelCorrected(p: Config.Profile, host: Host, parses: UrlParser,
                                 models: ModelsRequest -> Http<ModelsBody>)
    : (r: Result<string, Error>)
    ensures p.endpoint != "" ==> r == RequestModel(p, host, parses, models)
    ensures r.Err? ==> r.error == ModelUnresolvable(p.model)
    ensures r.Ok? ==> var fetched := FetchModels(ModelsUrlFor(p), ApiKey(p, host), parses, models);
                      && (fetched.Some? ==> r.value in fetched.value)
                      && (fetched.None? ==> r.value in Candidates(p.model))
  {
    if p.endpoint != "" then ModelsUrlForAgrees(p); RequestModel(p, host, parses, models)
    else
      var fetched := FetchModels(ModelsUrlFor(p), ApiKey(p, host), parses, models);
      var r := ResolveModel(p.model, fetched);
      if r.Ok? then ResolvedModelOrigin(p.model, fetched); r else r
  }

  /** With no endpoint, a setting of only `auto`, and a default server that
      lists models: the written resolution fails, the corrected one picks the
      first listed model. */
  lemma AutoResolvesOnlyWhenCorrected(p: Config.Profile, host: Host, parses: UrlParser,
                                      models: ModelsRequest -> Http<ModelsBody>)
    requires p.endpoint == "" && p.model == Auto && ApiKey(p, host).Ok? && parses(DefaultBase + ModelsSuffix)
    requires var h := models(ModelsRequest(DefaultBase + ModelsSuffix, Authorization(ApiKey(p, host).value)));
             h.Answered? && h.status == StatusOK && h.body.ModelList? && |h.body.ids| > 0
    ensures RequestModel(p, host, parses, models) == Err(ModelUnresolvable(Auto))
    ensures RequestModelCorrected(p, host, parses, models)
            == Ok(models(ModelsRequest(DefaultBase + ModelsSuffix, Authorization(ApiKey(p, host).value))).body.ids[0])
  {
    AutoAloneWithoutList();
    ModelsUrlForDefault(p);
    DefaultModelsJoin();
    var ids := models(ModelsRequest(DefaultBase + ModelsSuffix, Authorization(ApiKey(p, host).value))).body.ids;
    assert FetchModels(ModelsUrlFor(p), ApiKey(p, host), parses, models) == Some(ids);
    SettingAutoAlone();
    assert FirstResolving([Auto], ids, 0) == Some(0);
  }

  /** The steps of `Chat` after the model is resolved: create the request
      (which parses the endpoint), load the key, then send. */
  function ChatWithModel(p: Config.Profile, resolved: Result<string, Error>, systemPrompt: string, userPrompt: string,
                         host: Host, parses: UrlParser, exchange: ChatRequest -> Http<ChatBody>)
    : (r: Result<string, Error>)
    ensures resolved.Err? ==> r == Err(resolved.error)
    ensures resolved.Ok? && !parses(Endpoint(p)) ==> r == Err(RequestInvalid(Endpoint(p)))
    ensures resolved.Ok? && parses(Endpoint(p)) && ApiKey(p, host).Err? ==> r == Err(KeyFileFailed(ApiKey(p, host).error))
    ensures resolved.Ok? && parses(Endpoint(p)) && ApiKey(p, host).Ok? ==>
              r == ChatAnswer(exchange(BuildRequest(Endpoint(p), resolved.value, systemPrompt, userPrompt, false,
                                                    ApiKey(p, host).value)))
  {
    var model :- resolved;
    if !parses(Endpoint(p)) then Err(RequestInvalid(Endpoint(p)))
    else
      var key :- ApiKey(p, host).MapError(e => KeyFileFailed(e));
      ChatAnswer(exchange(BuildRequest(Endpoint(p), model, systemPrompt, userPrompt, false, key)))
  }

  /** `Chat`: resolve the model, create the request, load the key, send. */
  function Chat(p: Config.Profile, systemPrompt: string, userPrompt: string, host: Host, parses: UrlParser,
                models: ModelsRequest -> Http<ModelsBody>, exchange: ChatRequest -> Http<ChatBody>)
    : (r: Result<string, Error>)
    ensures RequestModel(p, host, parses, models).Err? ==> r == Err(ModelUnresolvable(p.model))
    ensures RequestModel(p, host, parses, models).Ok? && !parses(Endpoint(p)) ==> r == Err(RequestInvalid(Endpoint(p)))
    ensures RequestModel(p, host, parses, models).Ok? && parses(Endpoint(p)) && ApiKey(p, host).Err? ==>
              r == Err(KeyFileFailed(ApiKey(p, host).error))
    ensures RequestModel(p, host, parses, models).Ok? && parses(Endpoint(p)) && ApiKey(p, host).Ok? ==>
              r == ChatAnswer(exchange(BuildRequest(Endpoint(p), RequestModel(p, host, parses, models).value,
                                                    systemPrompt, userPrompt, false, ApiKey(p, host).value)))
  {
    ChatWithModel(p, RequestModel(p, host, parses, models), systemPrompt, userPrompt, host, parses, exchange)
  }

  /** `Chat` with the corrected resolution: the same call whenever the
      profile names an endpoint; with none, the model resolved against the
      default server's list is sent to the default endpoint. */
  function ChatCorrected(p: Config.Profile, systemPrompt: string, userPrompt: string, host: Host, parses: UrlParser,
                         models: ModelsRequest -> Http<ModelsBody>, exchange: ChatRequest -> Http<ChatBody>)
    : (r: Result<string, Error>)
    ensures p.endpoint != "" ==> r == Chat(p, systemPrompt, userPrompt, host, parses, models, exchange)
    ensures RequestModelCorrected(p, host, parses, models).Err? ==> r == Err(ModelUnresolvable(p.model))
    ensures p.endpoint == "" && RequestModelCorrected(p, host, parses, models).Ok? && parses(DefaultEndpoint)
            && ApiKey(p, host).Ok? ==>
              r == ChatAnswer(exchange(BuildRequest(DefaultEndpoint, RequestModelCorrected(p, host, parses, models).value,
                                                    systemPrompt, userPrompt, false, ApiKey(p, host).value)))
  {
    ChatWithModel(p, RequestModelCorrected(p, host, parses, models), systemPrompt, userPrompt, host, parses, exchange)
  }

  /** The steps of `ChatStream` after the model is resolved. */
  function ChatStreamWithModel(p: Config.Profile, resolved: Result<string, Error>, systemPrompt: string,
                               userPrompt: string, host: Host, parses: UrlParser,
                               exchange: ChatRequest -> Http<StreamBody>, ctx: Ctx)
    : (r: Outcome<Error>)
    ensures resolved.Err? ==> r == Outcome([], Some(resolved.error))
    ensures resolved.Ok? && !parses(Endpoint(p)) ==> r == Outcome([], Some(RequestInvalid(Endpoint(p))))
    ensures resolved.Ok? && parses(Endpoint(p)) && ApiKey(p, host).Err? ==>
              r == Outcome([], Some(KeyFileFailed(ApiKey(p, host).error)))
    ensures resolved.Ok? && parses(Endpoint(p)) && ApiKey(p, host).Ok? ==>
              r == StreamAnswer(exchange(BuildRequest(Endpoint(p), resolved.value, systemPrompt, userPrompt, true,
                                                      ApiKey(p, host).value)), ctx)
  {
    match resolved
    case Err(e) => Outcome([], Some(e))
    case Ok(model) =>
      if !parses(Endpoint(p)) then Outcome([], Some(RequestInvalid(Endpoint(p))))
      else match ApiKey(p, host)
        case Err(e) => Outcome([], Some(KeyFileFailed(e)))
        case Ok(key) => StreamAnswer(exchange(BuildRequest(Endpoint(p), model, systemPrompt, userPrompt, true, key)), ctx)
  }

  /** `ChatStream`: the same steps, then the event stream of the other
      OpenAI-compatible providers. */
  function ChatStream(p: Config.Profile, systemPrompt: string, userPrompt: string, host: Host, parses: UrlParser,
                      models: ModelsRequest -> Http<ModelsBody>, exchange: ChatRequest -> Http<StreamBody>, ctx: Ctx)
    : (r: Outcome<Error>)
    ensures RequestModel(p, host, parses, models).Err? ==> r == Outcome([], Some(ModelUnresolvable(p.model)))
    ensures RequestModel(p, host, parses, models).Ok? && !parses(Endpoint(p)) ==>
              r == Outcome([], Some(RequestInvalid(Endpoint(p))))
    ensures RequestModel(p, host, parses, models).Ok? && parses(Endpoint(p)) && ApiKey(p, host).Err? ==>
              r == Outcome([], Some(KeyFileFailed(ApiKey(p, host).error)))
    ensures RequestModel(p, host, parses, models).Ok? && parses(Endpoint(p)) && ApiKey(p, host).Ok? ==>
              r == StreamAnswer(exchange(BuildRequest(Endpoint(p), RequestModel(p, host, parses, models).value,
                                                      systemPrompt, userPrompt, true, ApiKey(p, host).value)), ctx)
  {
    ChatStreamWithModel(p, RequestModel(p, host, parses, models), systemPrompt, userPrompt, host, parses, exchange, ctx)
  }

  /** `ChatStream` with the corrected resolution. */
  function ChatStreamCorrected(p: Config.Profile, systemPrompt: string, userPrompt: string, host: Host,
                               parses: UrlParser, models: ModelsRequest -> Http<ModelsBody>,
                               exchange: ChatRequest -> Http<StreamBody>, ctx: Ctx)
    : (r: Outcome<Error>)
    ensures p.endpoint != "" ==> r == ChatStream(p, systemPrompt, userPrompt, host, parses, models, exchange, ctx)
    ensures RequestModelCorrected(p, host, parses, models).Err? ==> r == Outcome([], Some(ModelUnresolvable(p.model)))
    ensures p.endpoint == "" && RequestModelCorrected(p, host, parses, models).Ok? && parses(DefaultEndpoint)
            && ApiKey(p, host).Ok? ==>
              r == StreamAnswer(exchange(BuildRequest(DefaultEndpoint, RequestModelCorrected(p, host, parses, models).value,
                                                      systemPrompt, userPrompt, true, ApiKey(p, host).value)), ctx)
  {
    ChatStreamWithModel(p, RequestModelCorrected(p, host, parses, models), systemPrompt, userPrompt, host, parses,
                        exchange, ctx)
  }

  /** A single named model goes out as written when the model list cannot
      be fetched; and then, with an inline key, the request is the plain
      `openai` one. */
  lemma SingleModelWithoutList(setting: string)
    requires ',' !in setting && Named(setting)
    requires !GoStrings.IsSpace(setting[0]) && !GoStrings.IsSpace(setting[|setting| - 1])
    ensures ResolveModel(setting, None) == Ok(setting)
  {
    PlainSetting(setting);
    assert FirstNamed([setting], 0) == Some(0);
  }

  lemma SingleModelAsOpenAI(p: Config.Profile, systemPrompt: string, userPrompt: string, host: Host,
                            parses: UrlParser, models: ModelsRequest -> Http<ModelsBody>,
                            exchange: ChatRequest -> Http<ChatBody>)
    requires RequestModel(p, host, parses, models) == Ok(p.model) && p.credentialsFile == ""
    ensures Chat(p, systemPrompt, userPrompt, host, parses, models, exchange)
            == OpenAI.Chat(p, systemPrompt, userPrompt, host, parses, exchange)
  {
  }
}
