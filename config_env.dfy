/** `ConfigManager` of the provider package: the environment after start-up
    (python-dotenv or the hand-written `.env` loader, then the Streamlit
    secrets), and the lookups over it. The process environment is a map that
    the loaders return updated. */
module ConfigEnv {
  import opened Common
  import opened EnvLine
  import Dict

  /** `os.environ[k] = v` raises `ValueError` for an empty name or one holding `=`. */
  predicate IllegalName(k: string)
  {
    k == "" || '=' in k
  }

  /** `os.getenv(k, default)`. */
  function GetEnv(env: map<string, string>, k: string, default: string): (r: string)
    ensures k in env ==> r == env[k]
    ensures k !in env ==> r == default
  {
    if k in env then env[k] else default
  }

  /** `os.getenv(k, default).lower() == 'true'`: a switch read from the
      environment. */
  predicate EnvFlag(env: map<string, string>, k: string, default: string)
  {
    Lower(GetEnv(env, k, default)) == "true"
  }

  // ---------------------------------------------------------------------------
  // Start-up loading
  // ---------------------------------------------------------------------------

  /** `_manual_load_env`: every assignment overwrites; the first illegal name
      raises, which the surrounding `try` catches, so the remaining lines are
      not read and the earlier assignments stay in effect. */
  function ManualEntries(env: map<string, string>, asg: seq<Option<(string, string)>>): map<string, string>
    decreases |asg|
  {
    if asg == [] then env
    else match asg[0]
      case None => ManualEntries(env, asg[1..])
      case Some((k, v)) => if IllegalName(k) then env else ManualEntries(env[k := v], asg[1..])
  }

  method ManualLoadEnv(env: map<string, string>, lines: seq<string>) returns (r: map<string, string>)
    ensures r == ManualEntries(env, Assignments(lines))
  {
    r := AssignAll(env, Assignments(lines));
  }

  /** The loop of `_manual_load_env` over the parsed lines. */
  method AssignAll(env: map<string, string>, asg: seq<Option<(string, string)>>) returns (r: map<string, string>)
    ensures r == ManualEntries(env, asg)
  {
    r := env;
    var i := 0;
    while i < |asg|
      invariant 0 <= i <= |asg|
      invariant ManualEntries(r, asg[i..]) == ManualEntries(env, asg)
    {
      assert asg[i..][1..] == asg[i + 1..];
      if asg[i].Some? {
        var (k, v) := asg[i].value;
        if IllegalName(k) {
          break;
        }
        r := r[k := v];
      }
      i := i + 1;
    }
    assert asg == asg[..] && asg[|asg|..] == [];
  }

  /** No line assigns `k`. */
  predicate Unassigned(asg: seq<Option<(string, string)>>, k: string)
  {
    forall i :: 0 <= i < |asg| && asg[i].Some? ==> asg[i].value.0 != k
  }

  /** A variable no line assigns keeps its value, or stays absent. */
  lemma {:induction false} ManualUntouched(env: map<string, string>, asg: seq<Option<(string, string)>>, k: string)
    requires Unassigned(asg, k)
    ensures var r := ManualEntries(env, asg); (k in r <==> k in env) && (k in env ==> r[k] == env[k])
    decreases |asg|
  {
    if asg != [] {
      assert Unassigned(asg[1..], k) by {
        forall i | 0 <= i < |asg[1..]| && asg[1..][i].Some? ensures asg[1..][i].value.0 != k {
          assert asg[1..][i] == asg[i + 1];
        }
      }
      match asg[0]
      case None => ManualUntouched(env, asg[1..], k);
      case Some((k', v)) =>
        if !IllegalName(k') {
          ManualUntouched(env[k' := v], asg[1..], k);
        }
    }
  }

  /** Without illegal names, a variable holds the value of its last assignment. */
  lemma {:induction false} ManualLastWins(env: map<string, string>, asg: seq<Option<(string, string)>>, j: nat, k: string, v: string)
    requires forall i :: 0 <= i < |asg| && asg[i].Some? ==> !IllegalName(asg[i].value.0)
    requires j < |asg| && asg[j] == Some((k, v))
    requires Unassigned(asg[j + 1..], k)
    ensures var r := ManualEntries(env, asg); k in r && r[k] == v
    decreases |asg|
  {
    var rest := asg[1..];
    assert forall i :: 0 <= i < |rest| ==> rest[i] == asg[i + 1];
    if j == 0 {
      assert rest == asg[j + 1..];
      ManualUntouched(env[k := v], rest, k);
    } else {
      assert rest[j - 1 + 1..] == asg[j + 1..];
      match asg[0]
      case None => ManualLastWins(env, rest, j - 1, k, v);
      case Some((k', v')) => ManualLastWins(env[k' := v'], rest, j - 1, k, v);
    }
  }

  /** Loading stops at an illegal name: what follows it has no effect. */
  lemma {:induction false} ManualStopsAtIllegal(env: map<string, string>, asg: seq<Option<(string, string)>>, j: nat)
    requires j < |asg| && asg[j].Some? && IllegalName(asg[j].value.0)
    ensures ManualEntries(env, asg) == ManualEntries(env, asg[..j])
    decreases |asg|
  {
    if j > 0 {
      assert asg[..j][1..] == asg[1..][..j - 1];
      match asg[0]
      case None => ManualStopsAtIllegal(env, asg[1..], j - 1);
      case Some((k, v)) =>
        if !IllegalName(k) {
          ManualStopsAtIllegal(env[k := v], asg[1..], j - 1);
        }
    }
  }

  /** `_load_streamlit_secrets`: a secret fills a variable only when the name is
      not in the environment at all; an illegal name raises into the bare
      `except`, which ends the loop. */
  function SecretEntries(env: map<string, string>, secrets: Dict.Table<string>): map<string, string>
    decreases |secrets|
  {
    if secrets == [] then env
    else
      var k := secrets[0].key;
      if k in env then SecretEntries(env, secrets[1..])
      else if IllegalName(k) then env
      else SecretEntries(env[k := secrets[0].value], secrets[1..])
  }

  method LoadStreamlitSecrets(env: map<string, string>, secrets: Option<Dict.Table<string>>) returns (r: map<string, string>)
    ensures secrets.None? ==> r == env
    ensures secrets.Some? ==> r == SecretEntries(env, secrets.value)
  {
    r := env;
    if secrets.None? {
      return;
    }
    var s := secrets.value;
    var i := 0;
    while i < |s|
      invariant 0 <= i <= |s|
      invariant SecretEntries(r, s[i..]) == SecretEntries(env, s)
    {
      assert s[i..][1..] == s[i + 1..];
      var k := s[i].key;
      if k !in r {
        if IllegalName(k) {
          break;
        }
        r := r[k := s[i].value];
      }
      i := i + 1;
    }
    assert s[|s|..] == [];
  }

  /** Secrets never override a variable that is already present. */
  lemma {:induction false} SecretsKeepEnv(env: map<string, string>, secrets: Dict.Table<string>, k: string)
    requires k in env
    ensures var r := SecretEntries(env, secrets); k in r && r[k] == env[k]
    decreases |secrets|
  {
    if secrets != [] {
      var k0 := secrets[0].key;
      if k0 in env {
        SecretsKeepEnv(env, secrets[1..], k);
      } else if !IllegalName(k0) {
        SecretsKeepEnv(env[k0 := secrets[0].value], secrets[1..], k);
      }
    }
  }

  /** Without illegal names, an absent variable receives its secret. */
  lemma {:induction false} SecretsFill(env: map<string, string>, secrets: Dict.Table<string>, k: string)
    requires forall i :: 0 <= i < |secrets| ==> !IllegalName(secrets[i].key)
    requires k !in env && Dict.Has(secrets, k)
    ensures var r := SecretEntries(env, secrets); k in r && Some(r[k]) == Dict.Get(secrets, k)
    decreases |secrets|
  {
    var k0 := secrets[0].key;
    if k0 == k {
      SecretsKeepEnv(env[k := secrets[0].value], secrets[1..], k);
    } else {
      assert Dict.Keys(secrets) == [k0] + Dict.Keys(secrets[1..]);
      SecretsFill(if k0 in env then env else env[k0 := secrets[0].value], secrets[1..], k);
    }
  }

  /** What start-up finds: the environment, whether python-dotenv is installed
      and what its `load_dotenv()` leaves (it is a library not modelled here),
      the lines of `.env` if the file exists, and the Streamlit secrets if
      `streamlit` imports and has `secrets`. */
  datatype Startup = Startup(
    env: map<string, string>,
    dotenvInstalled: bool,
    dotenvResult: map<string, string>,
    envFile: Option<seq<string>>,
    secrets: Option<Dict.Table<string>>)

  /** `ConfigManager.__init__`: `_load_dotenv`, then `_load_streamlit_secrets`. */
  method LoadEnvironment(s: Startup) returns (env: map<string, string>)
    ensures var afterDotenv :=
        if s.dotenvInstalled then s.dotenvResult
        else if s.envFile.Some? then ManualEntries(s.env, Assignments(s.envFile.value))
        else s.env;
      env == if s.secrets.Some? then SecretEntries(afterDotenv, s.secrets.value) else afterDotenv
  {
    env := s.env;
    if s.dotenvInstalled {
      env := s.dotenvResult;
    } else if s.envFile.Some? {
      env := ManualLoadEnv(env, s.envFile.value);
    }
    env := LoadStreamlitSecrets(env, s.secrets);
  }

  // ---------------------------------------------------------------------------
  // Lookups
  // ---------------------------------------------------------------------------

  /** The provider names the lookup tables know, after `provider.lower()`. */
  datatype ProviderKey = OpenAI | Anthropic | Google | Gemini | HuggingFace | Cohere | AzureOpenAI | Ollama | Simple | Unknown

  function KeyName(k: ProviderKey): string
  {
    match k
    case OpenAI => "openai"
    case Anthropic => "anthropic"
    case Google => "google"
    case Gemini => "gemini"
    case HuggingFace => "huggingface"
    case Cohere => "cohere"
    case AzureOpenAI => "azure_openai"
    case Ollama => "ollama"
    case Simple => "simple"
    case Unknown => ""
  }

  /** Which table row a lower-cased name selects. */
  function KeyOfLower(p: string): (k: ProviderKey)
    ensures k != Unknown ==> KeyName(k) == p
  {
    if p == "openai" then OpenAI
    else if p == "anthropic" then Anthropic
    else if p == "google" then Google
    else if p == "gemini" then Gemini
    else if p == "huggingface" then HuggingFace
    else if p == "cohere" then Cohere
    else if p == "azure_openai" then AzureOpenAI
    else if p == "ollama" then Ollama
    else if p == "simple" then Simple
    else Unknown
  }

  lemma KeyNameRoundTrip(k: ProviderKey)
    requires k != Unknown
    ensures KeyOfLower(KeyName(k)) == k
  {
  }

  /** The table row of a provider name, matched case-insensitively. */
  function KeyOf(provider: string): (k: ProviderKey)
    ensures k != Unknown ==> Lower(provider) == KeyName(k)
  {
    KeyOfLower(Lower(provider))
  }

  /** A name already in lower case selects its own row. */
  lemma KeyOfLowerName(k: ProviderKey)
    requires k != Unknown
    ensures KeyOf(KeyName(k)) == k
  {
    NamesLowerCase(k);
    LowerNoCapitals(KeyName(k));
    KeyNameRoundTrip(k);
  }

  /** The row names are written in lower case. */
  lemma NamesLowerCase(k: ProviderKey)
    ensures forall i :: 0 <= i < |KeyName(k)| ==> !('A' <= KeyName(k)[i] <= 'Z')
  {
    match k
    case OpenAI =>
    case Anthropic =>
    case Google =>
    case Gemini =>
    case HuggingFace =>
    case Cohere =>
    case AzureOpenAI =>
    case Ollama =>
    case Simple =>
    case Unknown =>
  }

  /** The `provider_keys` table of `get_api_key`. */
  function KeyEnvName(k: ProviderKey): Option<string>
  {
    match k
    case OpenAI => Some("OPENAI_API_KEY")
    case Anthropic => Some("ANTHROPIC_API_KEY")
    case Google => Some("GOOGLE_API_KEY")
    case Gemini => Some("GOOGLE_API_KEY")
    case HuggingFace => Some("HUGGINGFACE_API_KEY")
    case Cohere => Some("COHERE_API_KEY")
    case AzureOpenAI => Some("AZURE_OPENAI_API_KEY")
    case _ => None
  }

  /** `get_api_key`: `None` for an unknown provider or an unset variable; an
      empty value is returned as is. */
  function ApiKey(env: map<string, string>, provider: string): (r: Option<string>)
    ensures r.Some? <==> KeyEnvName(KeyOf(provider)).Some? && KeyEnvName(KeyOf(provider)).value in env
    ensures r.Some? ==> r.value == env[KeyEnvName(KeyOf(provider)).value]
  {
    match KeyEnvName(KeyOf(provider))
    case None => None
    case Some(name) => if name in env then Some(env[name]) else None
  }

  /** The provider name is matched case-insensitively. */
  lemma ApiKeyCaseInsensitive(env: map<string, string>, provider: string)
    ensures ApiKey(env, provider) == ApiKey(env, Lower(provider))
  {
    LowerIdempotent(provider);
  }

  /** `gemini` is an alias of `google`. */
  lemma GeminiIsGoogle(env: map<string, string>)
    ensures ApiKey(env, "gemini") == ApiKey(env, "google")
  {
    KeyOfLowerName(Gemini);
    KeyOfLowerName(Google);
  }

  /** The `provider_models` table of `get_model_name`: variable and default. */
  function ModelEnv(k: ProviderKey): Option<(string, string)>
  {
    match k
    case OpenAI => Some(("OPENAI_MODEL", "gpt-3.5-turbo"))
    case Anthropic => Some(("ANTHROPIC_MODEL", "claude-3-haiku-20240307"))
    case Google => Some(("GEMINI_MODEL", "gemini-pro"))
    case Gemini => Some(("GEMINI_MODEL", "gemini-pro"))
    case HuggingFace => Some(("HUGGINGFACE_MODEL", "microsoft/DialoGPT-medium"))
    case Cohere => Some(("COHERE_MODEL", "command"))
    case Ollama => Some(("OLLAMA_MODEL", "llama2"))
    case _ => None
  }

  /** `get_model_name`: the model variable or its default for a known provider,
      `"default"` otherwise. */
  function ModelName(env: map<string, string>, provider: string): (r: string)
    ensures ModelEnv(KeyOf(provider)).None? ==> r == "default"
    ensures ModelEnv(KeyOf(provider)).Some? ==>
      var (name, default) := ModelEnv(KeyOf(provider)).value;
      (name in env ==> r == env[name]) && (name !in env ==> r == default)
  {
    match ModelEnv(KeyOf(provider))
    case None => "default"
    case Some((name, default)) => GetEnv(env, name, default)
  }

  /** `azure_openai` has a key variable but no model entry. */
  lemma AzureModelIsDefault(env: map<string, string>)
    ensures ModelName(env, "azure_openai") == "default"
  {
    KeyOfLowerName(AzureOpenAI);
  }

  // ---------------------------------------------------------------------------
  // `int(...)` of an environment value
  // ---------------------------------------------------------------------------

  predicate AllDigits(s: string)
  {
    forall i :: 0 <= i < |s| ==> '0' <= s[i] <= '9'
  }

  function DigitsValue(ds: string): (n: nat)
    requires AllDigits(ds)
  {
    if ds == [] then 0 else DigitsValue(ds[..|ds| - 1]) * 10 + (ds[|ds| - 1] as int - '0' as int)
  }

  predicate IsDigit(c: char)
  {
    '0' <= c <= '9'
  }

  /** Two underscores in a row start at `i`. */
  predicate DoubleUnderscoreAt(s: string, i: nat)
    requires i + 1 < |s|
  {
    s[i] == '_' && s[i + 1] == '_'
  }

  /** A run of ASCII digits in which single underscores may separate two
      digits, as `int` and `float` accept it: "1_000" but not "_1", "1_" or "1__0". */
  predicate DigitGroup(s: string)
  {
    s != [] && IsDigit(s[0]) && IsDigit(s[|s| - 1])
    && (forall i :: 0 <= i < |s| ==> IsDigit(s[i]) || s[i] == '_')
    && (forall i :: 0 <= i < |s| - 1 ==> !DoubleUnderscoreAt(s, i))
  }

  /** The digits of a group with its underscores removed. */
  function Ungrouped(s: string): (r: string)
    requires forall i :: 0 <= i < |s| ==> IsDigit(s[i]) || s[i] == '_'
    ensures AllDigits(r) && |r| <= |s|
  {
    if s == [] then []
    else if s[|s| - 1] == '_' then Ungrouped(s[..|s| - 1])
    else
      var rest := Ungrouped(s[..|s| - 1]);
      assert IsDigit(s[|s| - 1]);
      assert forall i :: 0 <= i < |rest| ==> (rest + [s[|s| - 1]])[i] == rest[i];
      rest + [s[|s| - 1]]
  }

  /** A group without underscores is its own digits. */
  lemma {:induction false} UngroupedDigits(s: string)
    requires AllDigits(s)
    ensures Ungrouped(s) == s
  {
    if s != [] {
      UngroupedDigits(s[..|s| - 1]);
    }
  }

  /** The text after an optional leading sign. */
  function Unsigned(t: string): (u: string)
    ensures |u| <= |t| && (u == t || u == t[1..])
  {
    if t != [] && (t[0] == '-' || t[0] == '+') then t[1..] else t
  }

  /** `int` on text without surrounding whitespace: an optional sign and a
      digit group; `None` where `int` raises. */
  function IntLiteral(t: string): (r: Option<int>)
    ensures r.Some? <==> DigitGroup(Unsigned(t))
  {
    var ds := Unsigned(t);
    if DigitGroup(ds) then
      var v: int := DigitsValue(Ungrouped(ds));
      Some(if t[0] == '-' then -v else v)
    else None
  }

  /** Python's `int(s)` on base-10 text, surrounding whitespace allowed. */
  function PyInt(s: string): Option<int>
  {
    IntLiteral(Strip(s))
  }

  /** An exponent after `e`: an optional sign and a digit group. */
  predicate ExponentPart(e: string)
  {
    DigitGroup(Unsigned(e))
  }

  /** Digits with at most one decimal point, at least one digit on some side. */
  predicate MantissaPart(m: string)
  {
    match IndexOf(m, '.')
    case None => DigitGroup(m)
    case Some(d) =>
      var whole := m[..d];
      var frac := m[d + 1..];
      (whole != [] || frac != []) && (whole == [] || DigitGroup(whole)) && (frac == [] || DigitGroup(frac))
  }

  /** An unsigned decimal literal, lower-cased: a mantissa and an optional exponent. */
  predicate DecimalPart(s: string)
  {
    match IndexOf(s, 'e')
    case None => MantissaPart(s)
    case Some(k) => MantissaPart(s[..k]) && ExponentPart(s[k + 1..])
  }

  /** `float` accepts the text (surrounding whitespace already removed): an
      optional sign, then a decimal literal or, in any case, `inf`,
      `infinity` or `nan`. */
  predicate FloatLiteral(t: string)
  {
    var body := Lower(Unsigned(t));
    body == "inf" || body == "infinity" || body == "nan" || DecimalPart(body)
  }

  /** Python's `float(s)` does not raise. */
  predicate PyFloatParses(s: string)
  {
    FloatLiteral(Strip(s))
  }

  lemma {:induction false} DigitsOfNat(n: nat)
    ensures AllDigits(NatToString(n)) && DigitsValue(NatToString(n)) == n
  {
    var s := NatToString(n);
    if n < 10 {
      assert DigitsValue(s) == DigitsValue([]) * 10 + (s[0] as int - '0' as int);
      assert "0123456789"[n] as int - '0' as int == n;
    } else {
      DigitsOfNat(n / 10);
      assert s[..|s| - 1] == NatToString(n / 10);
      assert "0123456789"[n % 10] as int - '0' as int == n % 10;
    }
  }

  /** Plain non-empty digits form a group. */
  lemma DigitsAreGroup(s: string)
    requires s != [] && AllDigits(s)
    ensures DigitGroup(s)
  {
  }

  /** `int` of a sign-free digit string `ds`, with `neg` choosing a leading minus. */
  lemma SignedDigits(ds: string, neg: bool)
    requires ds != [] && AllDigits(ds)
    ensures IntLiteral(if neg then "-" + ds else ds) == Some(if neg then -(DigitsValue(ds) as int) else DigitsValue(ds) as int)
  {
    var t := if neg then "-" + ds else ds;
    UngroupedDigits(ds);
    DigitsAreGroup(ds);
    assert Unsigned(t) == ds by {
      if neg { assert t[1..] == ds; } else { assert IsDigit(t[0]); }
    }
    assert t[0] == '-' <==> neg by {
      if !neg { assert IsDigit(t[0]); }
    }
  }

  /** `int(str(n)) == n`: the round trip of a rendered integer. */
  lemma IntLiteralRoundTrip(n: int)
    ensures IntLiteral(IntToString(n)) == Some(n)
  {
    var m: nat := if n < 0 then -n else n;
    DigitsOfNat(m);
    SignedDigits(NatToString(m), n < 0);
  }

  lemma AsciiNotSpace(c: char)
    requires '!' <= c <= '~'
    ensures c !in Whitespace
  {
  }

  /** A rendered integer has no surrounding whitespace. */
  lemma IntTextStripped(n: int)
    ensures Strip(IntToString(n)) == IntToString(n)
  {
    var s := IntToString(n);
    AsciiNotSpace(s[0]);
    AsciiNotSpace(s[|s| - 1]);
    StripSetFixed(s, Whitespace);
  }

  /** `int(str(n)) == n`: the round trip of a rendered integer. */
  lemma PyIntRoundTrip(n: int)
    ensures PyInt(IntToString(n)) == Some(n)
  {
    IntTextStripped(n);
    IntLiteralRoundTrip(n);
  }

  // ---------------------------------------------------------------------------
  // `get_provider_config`
  // ---------------------------------------------------------------------------

  /** `os.getenv(k)` as a configuration value (`None` when unset). */
  function EnvValue(env: map<string, string>, k: string): Value
  {
    if k in env then Str(env[k]) else Null
  }

  /** The provider-specific entries added by `base_config.update`. */
  function ExtraConfig(env: map<string, string>, k: ProviderKey): Dict.Table<Value>
  {
    if k == AzureOpenAI then
      [Dict.Entry("endpoint", EnvValue(env, "AZURE_OPENAI_ENDPOINT")),
       Dict.Entry("api_version", Str(GetEnv(env, "AZURE_OPENAI_API_VERSION", "2024-02-15-preview"))),
       Dict.Entry("deployment_name", EnvValue(env, "AZURE_OPENAI_DEPLOYMENT_NAME"))]
    else if k == Ollama then
      [Dict.Entry("base_url", Str(GetEnv(env, "OLLAMA_BASE_URL", "http://localhost:11434")))]
    else if k == OpenAI then
      [Dict.Entry("organization", EnvValue(env, "OPENAI_ORGANIZATION")),
       Dict.Entry("project", EnvValue(env, "OPENAI_PROJECT"))]
    else []
  }

  /** `get_provider_config`: `{}` without a truthy key; `Err` where `int()`
      raises on the timeout or token limit, or `float()` on the temperature;
      otherwise the five base entries (the temperature kept as its accepted
      text) and the provider's extras. */
  function ProviderConfig(env: map<string, string>, provider: string): (r: Result<Dict.Table<Value>>)
    ensures (ApiKey(env, provider).None? || ApiKey(env, provider).value == "") ==> r == Ok([])
    ensures r.Ok? && r.value != [] ==>
      |r.value| >= 5 && r.value[0] == Dict.Entry("api_key", Str(ApiKey(env, provider).value)) &&
      r.value[1] == Dict.Entry("model", Str(ModelName(env, provider)))
    ensures r.Ok? && r.value != [] ==>
      ApiKey(env, provider).Some? && ApiKey(env, provider).value != "" && Limits(env).Some?
      && r.value == BaseEntries(ApiKey(env, provider).value, ModelName(env, provider),
                                Limits(env).value.0, Limits(env).value.1, GetEnv(env, "AI_TEMPERATURE", "0.7"))
                    + ExtraConfig(env, KeyOf(provider))
  {
    var key := ApiKey(env, provider);
    if key.None? || key.value == "" then Ok([])
    else
      match Limits(env)
      case None => Err("invalid literal for int() with base 10")
      case Some((timeout, maxTokens)) =>
        if !PyFloatParses(GetEnv(env, "AI_TEMPERATURE", "0.7")) then Err("could not convert string to float")
        else Ok(BaseEntries(key.value, ModelName(env, provider), timeout, maxTokens, GetEnv(env, "AI_TEMPERATURE", "0.7"))
           + ExtraConfig(env, KeyOf(provider)))
  }

  /** `int(os.getenv('AI_REQUEST_TIMEOUT', '30'))` and `int(os.getenv('AI_MAX_TOKENS', '500'))`,
      `None` when either `int` raises. */
  function Limits(env: map<string, string>): (r: Option<(int, int)>)
    ensures r.None? <==> PyInt(GetEnv(env, "AI_REQUEST_TIMEOUT", "30")).None? || PyInt(GetEnv(env, "AI_MAX_TOKENS", "500")).None?
    ensures r.Some? ==>
      PyInt(GetEnv(env, "AI_REQUEST_TIMEOUT", "30")).Some? && PyInt(GetEnv(env, "AI_MAX_TOKENS", "500")).Some?
      && r.value == (PyInt(GetEnv(env, "AI_REQUEST_TIMEOUT", "30")).value, PyInt(GetEnv(env, "AI_MAX_TOKENS", "500")).value)
  {
    var timeout := PyInt(GetEnv(env, "AI_REQUEST_TIMEOUT", "30"));
    var maxTokens := PyInt(GetEnv(env, "AI_MAX_TOKENS", "500"));
    if timeout.None? || maxTokens.None? then None else Some((timeout.value, maxTokens.value))
  }

  /** The five entries every configured provider gets. */
  function BaseEntries(key: string, model: string, timeout: int, maxTokens: int, temperature: string): (r: Dict.Table<Value>)
    ensures |r| == 5 && r[0] == Dict.Entry("api_key", Str(key)) && r[1] == Dict.Entry("model", Str(model))
    ensures r[2] == Dict.Entry("timeout", Num(timeout)) && r[3] == Dict.Entry("max_tokens", Num(maxTokens))
    ensures r[4] == Dict.Entry("temperature", Str(temperature))
  {
    [Dict.Entry("api_key", Str(key)),
     Dict.Entry("model", Str(model)),
     Dict.Entry("timeout", Num(timeout)),
     Dict.Entry("max_tokens", Num(maxTokens)),
     Dict.Entry("temperature", Str(temperature))]
  }

  /** The configuration fails exactly when a key is present and a limit is not
      an integer or the temperature not a float. */
  lemma ProviderConfigFails(env: map<string, string>, provider: string)
    ensures var key := ApiKey(env, provider);
      ProviderConfig(env, provider).Err? <==> (key.Some? && key.value != "" &&
        (PyInt(GetEnv(env, "AI_REQUEST_TIMEOUT", "30")).None? || PyInt(GetEnv(env, "AI_MAX_TOKENS", "500")).None?
         || !PyFloatParses(GetEnv(env, "AI_TEMPERATURE", "0.7"))))
  {
  }

  /** A successful, non-empty configuration had integer limits and a temperature `float` accepts. */
  lemma ProviderConfigParsed(env: map<string, string>, provider: string)
    requires ProviderConfig(env, provider).Ok? && ProviderConfig(env, provider).value != []
    ensures Limits(env).Some? && PyFloatParses(GetEnv(env, "AI_TEMPERATURE", "0.7"))
  {
  }

  /** `int` takes underscores between digits. */
  lemma GroupedInteger()
    ensures IntLiteral("1_5") == Some(15)
  {
    var t := "1_5";
    assert Unsigned(t) == t;
    assert DigitGroup(t) by { assert !DoubleUnderscoreAt(t, 0) && !DoubleUnderscoreAt(t, 1); }
    assert Ungrouped(t[..1]) == "1" by { assert t[..1][..0] == []; }
    assert Ungrouped(t[..2]) == "1" by { assert t[..2][..1] == t[..1]; }
    assert Ungrouped(t) == "15" by { assert t[..2] == t[..|t| - 1]; }
    assert DigitsValue("15") == 15 by { assert "15"[..1] == "1" && "1"[..0] == []; }
  }

  /** `int` rejects underscores at an end or doubled, a lone sign, nothing, and a point. */
  lemma MalformedIntegers()
    ensures IntLiteral("_1").None? && IntLiteral("1_").None? && IntLiteral("1__0").None?
    ensures IntLiteral("-").None? && IntLiteral("").None? && IntLiteral("3.5").None?
  {
    assert !DigitGroup(Unsigned("1__0")) by { assert DoubleUnderscoreAt("1__0", 1); }
    assert !DigitGroup(Unsigned("3.5")) by { assert !IsDigit("3.5"[1]); }
  }

  /** Literals `float` accepts. */
  lemma FloatAccepts()
    ensures FloatLiteral("0.7") && FloatLiteral(".5") && FloatLiteral("2.")
  {
    assert Lower("0.7") == "0.7" && IndexOf("0.7", '.') == Some(1) && "0.7"[..1] == "0" && "0.7"[2..] == "7";
    assert Lower(".5") == ".5" && ".5"[..0] == [] && ".5"[1..] == "5";
    assert Lower("2.") == "2." && "2."[..1] == "2" && "2."[2..] == [];
  }

  /** An exponent and the special names, in any case. */
  lemma FloatAcceptsExponentAndNames()
    ensures FloatLiteral("1e-3") && FloatLiteral("-Inf") && FloatLiteral("nan")
  {
    assert Lower("1e-3") == "1e-3" && IndexOf("1e-3", 'e') == Some(1) && "1e-3"[..1] == "1" && "1e-3"[2..] == "-3";
    assert Unsigned("-3") == "3";
    assert Unsigned("-Inf") == "Inf" && Lower("Inf") == "inf";
    assert Lower("nan") == "nan";
  }

  /** A word is not a float. */
  lemma FloatRejectsWord()
    ensures !FloatLiteral("abc")
  {
    assert Lower("abc") == "abc" && !IsDigit("abc"[0]);
  }

  /** A lone point is not a float. */
  lemma FloatRejectsPoint()
    ensures !FloatLiteral(".")
  {
    assert Lower(".") == "." && "."[..0] == [] && "."[1..] == [];
  }

  /** An exponent without digits is not a float. */
  lemma FloatRejectsEmptyExponent()
    ensures !FloatLiteral("1e")
  {
    assert Lower("1e") == "1e" && IndexOf("1e", 'e') == Some(1) && "1e"[2..] == [];
  }

  /** Two decimal points are not a float. */
  lemma FloatRejectsMalformed()
    ensures !FloatLiteral("1.2.3")
  {
    var t := "1.2.3";
    assert Lower(t) == t by { assert Lower(t)[1..] == Lower(t[1..]); }
    assert IndexOf(t, 'e').None?;
    assert IndexOf(t, '.') == Some(1);
    assert t[2..] == "2.3" && !IsDigit("2.3"[1]);
  }

  /** The default temperature is a float. */
  lemma DefaultTemperatureParses()
    ensures PyFloatParses("0.7")
  {
    FloatAccepts();
    AsciiNotSpace('0');
    AsciiNotSpace('7');
    StripSetFixed("0.7", Whitespace);
  }

  /** `ollama` has no key variable, so its `base_url` branch is never reached. */
  lemma OllamaConfigEmpty(env: map<string, string>)
    ensures ProviderConfig(env, "ollama") == Ok([])
  {
    KeyOfLowerName(Ollama);
  }

  // ---------------------------------------------------------------------------
  // Priority, default and availability
  // ---------------------------------------------------------------------------

  /** `get_provider_priority`: the comma-separated names, each stripped. */
  function ProviderPriority(env: map<string, string>): (r: seq<string>)
    ensures var parts := Split(GetEnv(env, "AI_PROVIDER_PRIORITY", "openai,simple"), ',');
      |r| == |parts| && forall i :: 0 <= i < |r| ==> r[i] == Strip(parts[i])
  {
    var parts := Split(GetEnv(env, "AI_PROVIDER_PRIORITY", "openai,simple"), ',');
    seq(|parts|, i requires 0 <= i < |parts| => Strip(parts[i]))
  }

  /** Every entry is stripped and free of commas. */
  lemma PriorityEntriesClean(env: map<string, string>, i: nat)
    requires i < |ProviderPriority(env)|
    ensures var p := ProviderPriority(env)[i];
      p == Strip(p) && ',' !in p
  {
    var parts := Split(GetEnv(env, "AI_PROVIDER_PRIORITY", "openai,simple"), ',');
    StripIdempotent(parts[i]);
    if ',' in Strip(parts[i]) {
      StripInside(parts[i], ',');
    }
  }

  /** `get_default_provider`. */
  function DefaultProvider(env: map<string, string>): (r: string)
    ensures "DEFAULT_AI_PROVIDER" !in env ==> r == "openai"
  {
    GetEnv(env, "DEFAULT_AI_PROVIDER", "openai")
  }

  /** `is_provider_available`: `simple` in any case needs nothing; the others
      need a non-empty key that is not the lower-case placeholder. */
  predicate IsProviderAvailable(env: map<string, string>, provider: string)
  {
    KeyOf(provider) == Simple ||
    (ApiKey(env, provider).Some? && ApiKey(env, provider).value != "" && ApiKey(env, provider).value != "your_api_key_here")
  }

  /** Only `simple` and the names with a key variable can be available. */
  lemma AvailableOnlyKnown(env: map<string, string>, provider: string)
    requires IsProviderAvailable(env, provider)
    ensures Lower(provider) == "simple" || KeyEnvName(KeyOf(provider)).Some?
  {
  }

  /** The dictionary `get_debug_info` returns. */
  datatype DebugReport = DebugReport(
    debugMode: bool,
    verboseLogging: bool,
    availableProviders: seq<string>,
    environment: string,
    configSources: seq<string>)

  /** `get_debug_info`: the two switches, the available names of the priority
      list, the environment name and the three configuration sources. */
  function DebugInfo(env: map<string, string>): (d: DebugReport)
    ensures forall p :: p in d.availableProviders <==> p in ProviderPriority(env) && IsProviderAvailable(env, p)
    ensures |d.availableProviders| <= |ProviderPriority(env)|
    ensures "AI_DEBUG_MODE" !in env ==> !d.debugMode
    ensures "AI_VERBOSE_LOGGING" !in env ==> !d.verboseLogging
    ensures "APP_ENVIRONMENT" !in env ==> d.environment == "development"
    ensures |d.configSources| == 3
    ensures d.availableProviders == Filter(ProviderPriority(env), (p: string) => IsProviderAvailable(env, p))
    ensures "AI_DEBUG_MODE" in env ==> d.debugMode == (Lower(env["AI_DEBUG_MODE"]) == "true")
    ensures "AI_VERBOSE_LOGGING" in env ==> d.verboseLogging == (Lower(env["AI_VERBOSE_LOGGING"]) == "true")
    ensures "APP_ENVIRONMENT" in env ==> d.environment == env["APP_ENVIRONMENT"]
    ensures d.configSources == ["environment_variables", ".env_file", "streamlit_secrets"]
  {
    UnsetFlagOff(env, "AI_DEBUG_MODE");
    UnsetFlagOff(env, "AI_VERBOSE_LOGGING");
    DebugReport(
      EnvFlag(env, "AI_DEBUG_MODE", "false"),
      EnvFlag(env, "AI_VERBOSE_LOGGING", "false"),
      Filter(ProviderPriority(env), (p: string) => IsProviderAvailable(env, p)),
      GetEnv(env, "APP_ENVIRONMENT", "development"),
      ConfigSources)
  }

  const ConfigSources: seq<string> := ["environment_variables", ".env_file", "streamlit_secrets"]

  /** A switch that defaults to `'false'` is off while its variable is unset. */
  lemma UnsetFlagOff(env: map<string, string>, k: string)
    ensures k !in env ==> !EnvFlag(env, k, "false")
  {
    assert Lower("false") == "false";
  }

  /** The placeholder check is case-sensitive: the upper-case placeholder counts as a key. */
  lemma UpperPlaceholderAccepted(env: map<string, string>)
    requires "OPENAI_API_KEY" in env && env["OPENAI_API_KEY"] == "YOUR_API_KEY_HERE"
    ensures IsProviderAvailable(env, "openai")
  {
    KeyOfLowerName(OpenAI);
  }
}
