/** `APIConfig`: API keys looked up in the process environment and then in the
    Streamlit secrets, with placeholder values rejected. The environment is a
    map; the `.env` loader that fills it is modelled on the file's lines. */
module ApiConfig {
  import opened Common
  import opened EnvLine

  const OpenAIKeyEnv := "OPENAI_API_KEY"
  const AnthropicKeyEnv := "ANTHROPIC_API_KEY"
  const GoogleKeyEnv := "GOOGLE_API_KEY"
  const OllamaBaseUrlEnv := "OLLAMA_BASE_URL"
  const HuggingFaceTokenEnv := "HUGGINGFACE_API_TOKEN"
  const CohereKeyEnv := "COHERE_API_KEY"
  const AzureKeyEnv := "AZURE_OPENAI_API_KEY"
  const AzureEndpointEnv := "AZURE_OPENAI_ENDPOINT"

  const DefaultOllamaBaseUrl := "http://localhost:11434"
  const PlaceholderApiKey := "YOUR_API_KEY_HERE"
  const PlaceholderOpenAIKey := "YOUR_OPENAI_API_KEY_HERE"

  /** Where keys come from: the environment, and the Streamlit secrets (`None`
      when `streamlit` cannot be imported or reading the secrets raises). */
  datatype Sources = Sources(env: map<string, string>, secrets: Option<map<string, string>>)

  /** `os.getenv(k)` is truthy. */
  predicate EnvSet(env: map<string, string>, k: string)
  {
    k in env && env[k] != ""
  }

  // ---------------------------------------------------------------------------
  // `.env` loading without overwriting
  // ---------------------------------------------------------------------------

  /** One line of `_load_env_manually`: a non-empty key is set only when the
      environment has no non-empty value for it. */
  function LoadEntry(env: map<string, string>, a: Option<(string, string)>): map<string, string>
  {
    if a.Some? && a.value.0 != "" && !EnvSet(env, a.value.0) then env[a.value.0 := a.value.1] else env
  }

  /** The environment after the assignments, applied first to last. */
  function LoadEntries(env: map<string, string>, asg: seq<Option<(string, string)>>): map<string, string>
  {
    if asg == [] then env else LoadEntry(LoadEntries(env, asg[..|asg| - 1]), asg[|asg| - 1])
  }

  /** `_load_env_manually` over the file's lines. */
  method LoadEnvManually(env: map<string, string>, lines: seq<string>) returns (r: map<string, string>)
    ensures r == LoadEntries(env, Assignments(lines))
  {
    var asg := Assignments(lines);
    r := env;
    var i := 0;
    while i < |asg|
      invariant 0 <= i <= |asg|
      invariant r == LoadEntries(env, asg[..i])
    {
      assert asg[..i + 1][..i] == asg[..i];
      r := LoadEntry(r, asg[i]);
      i := i + 1;
    }
    assert asg[..i] == asg;
  }

  /** A variable that already has a non-empty value is never overwritten. */
  lemma {:induction false} LoadKeepsSet(env: map<string, string>, asg: seq<Option<(string, string)>>, k: string)
    requires EnvSet(env, k)
    ensures EnvSet(LoadEntries(env, asg), k) && LoadEntries(env, asg)[k] == env[k]
  {
    if asg != [] {
      LoadKeepsSet(env, asg[..|asg| - 1], k);
    }
  }

  /** Variables only appear when some line assigns them. */
  lemma {:induction false} LoadOnlyAssignedKeys(env: map<string, string>, asg: seq<Option<(string, string)>>, k: string)
    requires k in LoadEntries(env, asg) && k !in env
    ensures exists i :: 0 <= i < |asg| && asg[i].Some? && asg[i].value.0 == k
  {
    if asg != [] {
      var init := asg[..|asg| - 1];
      if k in LoadEntries(env, init) {
        LoadOnlyAssignedKeys(env, init, k);
        var i :| 0 <= i < |init| && init[i].Some? && init[i].value.0 == k;
        assert asg[i] == init[i];
      } else {
        assert asg[|asg| - 1].Some?;
      }
    }
  }

  /** After a load, each assignment's key is either set to a non-empty value or
      holds that assignment's (then necessarily empty) value. */
  lemma {:induction false} LoadedEntryHolds(env: map<string, string>, asg: seq<Option<(string, string)>>, j: nat, k: string, v: string)
    requires j < |asg| && asg[j] == Some((k, v)) && k != ""
    ensures var after := LoadEntries(env, asg); EnvSet(after, k) || (k in after && after[k] == v)
  {
    var init := asg[..|asg| - 1];
    var last := asg[|asg| - 1];
    var before := LoadEntries(env, init);
    var after := LoadEntry(before, last);
    assert LoadEntries(env, asg) == after;
    if j == |asg| - 1 {
      if !EnvSet(before, k) {
        assert after == before[k := v];
      }
    } else {
      assert init[j] == asg[j];
      LoadedEntryHolds(env, init, j, k, v);
      if last.Some? && last.value.0 == k && !EnvSet(before, k) {
        assert after == before[k := last.value.1];
        assert before[k] == "" == v;
      }
    }
  }

  /** After a load, applying one of the file's assignments again changes nothing. */
  lemma LoadEntryAgain(env: map<string, string>, asg: seq<Option<(string, string)>>, j: nat)
    requires j < |asg|
    ensures LoadEntry(LoadEntries(env, asg), asg[j]) == LoadEntries(env, asg)
  {
    var after := LoadEntries(env, asg);
    if asg[j].Some? && asg[j].value.0 != "" {
      var (k, v) := asg[j].value;
      LoadedEntryHolds(env, asg, j, k, v);
      if !EnvSet(after, k) {
        assert after[k := v] == after;
      }
    }
  }

  /** Every getter reloads the file; the second and later loads change nothing. */
  lemma {:induction false} LoadIdempotent(env: map<string, string>, asg: seq<Option<(string, string)>>, n: nat)
    requires n <= |asg|
    ensures LoadEntries(LoadEntries(env, asg), asg[..n]) == LoadEntries(env, asg)
  {
    if n > 0 {
      assert asg[..n][..n - 1] == asg[..n - 1];
      LoadIdempotent(env, asg, n - 1);
      LoadEntryAgain(env, asg, n - 1);
    }
  }

  /** The whole file loaded twice is the file loaded once. */
  lemma LoadTwice(env: map<string, string>, lines: seq<string>)
    ensures var once := LoadEntries(env, Assignments(lines));
      LoadEntries(once, Assignments(lines)) == once
  {
    var asg := Assignments(lines);
    LoadIdempotent(env, asg, |asg|);
    assert asg[..|asg|] == asg;
  }

  /** `load_env_file`: nothing without `.env`; python-dotenv's result when it
      is installed (a library not modelled here); the hand-written loader
      otherwise. */
  method LoadEnvFile(env: map<string, string>, envFile: Option<seq<string>>, dotenvResult: Option<map<string, string>>)
    returns (r: map<string, string>)
    ensures envFile.None? ==> r == env
    ensures envFile.Some? && dotenvResult.Some? ==> r == dotenvResult.value
    ensures envFile.Some? && dotenvResult.None? ==> r == LoadEntries(env, Assignments(envFile.value))
  {
    r := env;
    if envFile.Some? {
      if dotenvResult.Some? {
        r := dotenvResult.value;
      } else {
        r := LoadEnvManually(env, envFile.value);
      }
    }
  }

  // ---------------------------------------------------------------------------
  // Key getters
  // ---------------------------------------------------------------------------

  /** `get_openai_api_key`. */
  function OpenAIKey(src: Sources): (key: string)
    ensures key != PlaceholderOpenAIKey
    ensures EnvSet(src.env, OpenAIKeyEnv) && src.env[OpenAIKeyEnv] != PlaceholderOpenAIKey ==> key == src.env[OpenAIKeyEnv]
    ensures key != "" ==> (OpenAIKeyEnv in src.env && key == src.env[OpenAIKeyEnv])
                          || (src.secrets.Some? && OpenAIKeyEnv in src.secrets.value && key == src.secrets.value[OpenAIKeyEnv])
  {
    if EnvSet(src.env, OpenAIKeyEnv) && src.env[OpenAIKeyEnv] != PlaceholderOpenAIKey then src.env[OpenAIKeyEnv]
    else if src.secrets.Some? && OpenAIKeyEnv in src.secrets.value && src.secrets.value[OpenAIKeyEnv] != PlaceholderOpenAIKey then
      src.secrets.value[OpenAIKeyEnv]
    else ""
  }

  /** The `env_map` of `get_api_key`, on the lower-cased provider name. */
  function KeyEnvName(provider: string): Option<string>
  {
    var p := Lower(provider);
    if p == "openai" then Some(OpenAIKeyEnv)
    else if p == "anthropic" then Some(AnthropicKeyEnv)
    else if p == "google" then Some(GoogleKeyEnv)
    else if p == "huggingface" then Some(HuggingFaceTokenEnv)
    else if p == "cohere" then Some(CohereKeyEnv)
    else if p == "azure" then Some(AzureKeyEnv)
    else None
  }

  /** `get_api_key`: "" for an unknown provider; `openai` is delegated to
      `get_openai_api_key`; the others reject the generic placeholder. */
  function ApiKey(src: Sources, provider: string): (key: string)
    ensures KeyEnvName(provider).None? ==> key == ""
    ensures Lower(provider) == "openai" ==> key == OpenAIKey(src)
    ensures Lower(provider) != "openai" ==> key != PlaceholderApiKey
    ensures key != "" ==> (KeyEnvName(provider).Some? &&
      var name := KeyEnvName(provider).value;
      (name in src.env && key == src.env[name]) || (src.secrets.Some? && name in src.secrets.value && key == src.secrets.value[name]))
  {
    match KeyEnvName(provider)
    case None => ""
    case Some(name) =>
      if Lower(provider) == "openai" then OpenAIKey(src)
      else if EnvSet(src.env, name) && src.env[name] != PlaceholderApiKey then src.env[name]
      else if src.secrets.Some? && name in src.secrets.value && src.secrets.value[name] != PlaceholderApiKey then
        src.secrets.value[name]
      else ""
  }

  /** The variable `name` is set in the environment to something other than `placeholder`. */
  predicate EnvUsable(src: Sources, name: string, placeholder: string)
  {
    EnvSet(src.env, name) && src.env[name] != placeholder
  }

  /** The secrets can be read, hold `name`, and its value is not `placeholder`. */
  predicate SecretUsable(src: Sources, name: string, placeholder: string)
  {
    src.secrets.Some? && name in src.secrets.value && src.secrets.value[name] != placeholder
  }

  /** The OpenAI key comes from the environment when usable there (its own
      placeholder excluded), else from the secrets when usable there, else it
      is empty. */
  lemma OpenAIKeyPriority(src: Sources)
    ensures EnvUsable(src, OpenAIKeyEnv, PlaceholderOpenAIKey) ==> OpenAIKey(src) == src.env[OpenAIKeyEnv]
    ensures !EnvUsable(src, OpenAIKeyEnv, PlaceholderOpenAIKey) && SecretUsable(src, OpenAIKeyEnv, PlaceholderOpenAIKey) ==>
      OpenAIKey(src) == src.secrets.value[OpenAIKeyEnv]
    ensures !EnvUsable(src, OpenAIKeyEnv, PlaceholderOpenAIKey) && !SecretUsable(src, OpenAIKeyEnv, PlaceholderOpenAIKey) ==>
      OpenAIKey(src) == ""
  {
  }

  /** `get_api_key` for a known provider other than OpenAI: the environment
      first, then the secrets, then "", with the generic placeholder excluded;
      for `openai` in any case it is the OpenAI getter, and for an unknown name "". */
  lemma ApiKeyPriority(src: Sources, provider: string)
    ensures KeyEnvName(provider).None? ==> ApiKey(src, provider) == ""
    ensures Lower(provider) == "openai" ==> ApiKey(src, provider) == OpenAIKey(src)
    ensures KeyEnvName(provider).Some? && Lower(provider) != "openai" ==>
      var name := KeyEnvName(provider).value;
      (EnvUsable(src, name, PlaceholderApiKey) ==> ApiKey(src, provider) == src.env[name])
      && (!EnvUsable(src, name, PlaceholderApiKey) && SecretUsable(src, name, PlaceholderApiKey) ==>
            ApiKey(src, provider) == src.secrets.value[name])
      && (!EnvUsable(src, name, PlaceholderApiKey) && !SecretUsable(src, name, PlaceholderApiKey) ==>
            ApiKey(src, provider) == "")
  {
  }

  /** The two getters disagree on placeholders: the generic one passes for `openai`. */
  lemma OpenAIAcceptsGenericPlaceholder()
    ensures ApiKey(Sources(map[OpenAIKeyEnv := PlaceholderApiKey], None), "openai") == PlaceholderApiKey
  {
    assert Lower("openai") == "openai";
  }

  /** The dictionary `get_azure_config` returns. */
  datatype AzureConfig = AzureConfig(apiKey: string, endpoint: string)

  /** `get_azure_config`: the `azure` key and the endpoint, "" when unset. */
  function GetAzureConfig(src: Sources): (c: AzureConfig)
    ensures c.apiKey != PlaceholderApiKey
    ensures c.apiKey != "" ==>
      (AzureKeyEnv in src.env && c.apiKey == src.env[AzureKeyEnv])
      || (src.secrets.Some? && AzureKeyEnv in src.secrets.value && c.apiKey == src.secrets.value[AzureKeyEnv])
    ensures AzureEndpointEnv !in src.env ==> c.endpoint == ""
    ensures AzureEndpointEnv in src.env ==> c.endpoint == src.env[AzureEndpointEnv]
  {
    assert Lower("azure") == "azure";
    AzureConfig(ApiKey(src, "azure"), if AzureEndpointEnv in src.env then src.env[AzureEndpointEnv] else "")
  }

  /** The dictionary `get_all_api_keys` returns, one field per key variable. */
  datatype AllKeys = AllKeys(openai: string, anthropic: string, google: string, huggingface: string, cohere: string, azure: string)

  /** `get_all_api_keys`. */
  function AllApiKeys(src: Sources): (k: AllKeys)
    ensures k.openai != PlaceholderOpenAIKey
    ensures k.anthropic != PlaceholderApiKey && k.google != PlaceholderApiKey && k.huggingface != PlaceholderApiKey
    ensures k.cohere != PlaceholderApiKey && k.azure != PlaceholderApiKey
  {
    NotOpenAI("anthropic");
    NotOpenAI("google");
    NotOpenAI("huggingface");
    NotOpenAI("cohere");
    NotOpenAI("azure");
    AllKeys(OpenAIKey(src), ApiKey(src, "anthropic"), ApiKey(src, "google"), ApiKey(src, "huggingface"),
      ApiKey(src, "cohere"), ApiKey(src, "azure"))
  }

  /** A name that does not start with `o` or `O` is not `openai` in any case. */
  lemma NotOpenAI(p: string)
    requires p != [] && p[0] != 'o' && p[0] != 'O'
    ensures Lower(p) != "openai"
  {
    LowerAt(p, 0);
  }

  /** The summary's OpenAI entry is what `get_api_key('openai')` returns. */
  lemma AllKeysOpenAI(src: Sources)
    ensures AllApiKeys(src).openai == ApiKey(src, "openai")
    ensures AllApiKeys(src).openai != "" <==> IsProviderAvailable(src, "openai")
  {
    OpenAIIsLower();
  }

  lemma OpenAIIsLower()
    ensures Lower("openai") == "openai"
  {
    LowerNoCapitals("openai");
  }

  /** `is_provider_available`. */
  predicate IsProviderAvailable(src: Sources, provider: string)
  {
    ApiKey(src, provider) != ""
  }

  /** `get_ollama_base_url`: the variable's value, even an empty one, or the default. */
  function OllamaBaseUrl(src: Sources): (url: string)
    ensures OllamaBaseUrlEnv !in src.env ==> url == DefaultOllamaBaseUrl
  {
    if OllamaBaseUrlEnv in src.env then src.env[OllamaBaseUrlEnv] else DefaultOllamaBaseUrl
  }

  const KnownProviders: seq<string> := ["openai", "anthropic", "google", "huggingface", "cohere", "azure"]

  /** `get_available_providers`: the providers with a key, then always `ollama`. */
  method AvailableProviders(src: Sources) returns (r: seq<string>)
    ensures r == Filter(KnownProviders, (p: string) => IsProviderAvailable(src, p)) + ["ollama"]
  {
    var keep := (p: string) => IsProviderAvailable(src, p);
    var names := KnownProviders;
    r := [];
    var i := 0;
    while i < |names|
      invariant 0 <= i <= |names|
      invariant r == Filter(names[..i], keep)
    {
      assert names[..i + 1][..i] == names[..i];
      if keep(names[i]) {
        r := r + [names[i]];
      }
      i := i + 1;
    }
    assert names[..i] == names;
    r := r + ["ollama"];
  }

  /** The list always ends with `ollama`, and holds a known provider exactly when it has a key. */
  lemma AvailableProvidersShape(src: Sources, p: string)
    ensures var r := Filter(KnownProviders, (p: string) => IsProviderAvailable(src, p)) + ["ollama"];
      r[|r| - 1] == "ollama" && (p in KnownProviders ==> (p in r <==> IsProviderAvailable(src, p)))
  {
    FilterThen(KnownProviders, (p: string) => IsProviderAvailable(src, p), "ollama", p);
  }

  lemma FilterThen<T(!new)>(s: seq<T>, keep: T -> bool, last: T, x: T)
    requires last !in s
    ensures var r := Filter(s, keep) + [last]; r[|r| - 1] == last && (x in s ==> (x in r <==> keep(x)))
  {
    var f := Filter(s, keep);
    assert (f + [last])[|f|] == last;
    assert x in f + [last] <==> x in f || x == last;
  }
}
