/** `ProductionConfig`: the switches of the beta deployment, read once from
    the environment, the dictionary `get_config` reports, and the list of AI
    providers the deployment offers. */
module ProductionConfig {
  import opened Common
  import ConfigEnv

  const AppName: string := "AITuber ルリ - ベータ版"
  const AppVersion: string := "0.1.0-beta"

  /** The class attributes. */
  datatype Settings = Settings(
    debug: bool,
    betaPassword: string,
    openaiApiKey: string,
    ollamaBaseUrl: string,
    databaseUrl: string,
    enableDebugFeatures: bool,
    enableAiFeatures: bool,
    enableObsIntegration: bool,
    enableStreamingFeatures: bool,
    betaAuthRequired: bool,
    showTechnicalDetails: bool,
    betaMode: bool)

  /** The attributes as the class body computes them from the environment. */
  function SettingsFrom(env: map<string, string>): Settings
  {
    var debug := ConfigEnv.EnvFlag(env, "DEBUG", "False");
    Settings(
      debug,
      ConfigEnv.GetEnv(env, "BETA_PASSWORD", "ruri_beta_2024"),
      ConfigEnv.GetEnv(env, "OPENAI_API_KEY", ""),
      ConfigEnv.GetEnv(env, "OLLAMA_BASE_URL", "http://localhost:11434"),
      ConfigEnv.GetEnv(env, "DATABASE_URL", ""),
      debug,
      ConfigEnv.EnvFlag(env, "ENABLE_AI_FEATURES", "True"),
      ConfigEnv.EnvFlag(env, "ENABLE_OBS_INTEGRATION", "False"),
      ConfigEnv.EnvFlag(env, "ENABLE_STREAMING_FEATURES", "False"),
      ConfigEnv.EnvFlag(env, "BETA_AUTH_REQUIRED", "False"),
      debug,
      true)
  }

  /** With nothing set, AI features are on and debugging, OBS, streaming and
      the beta login are off; the debug features and the technical details
      follow `DEBUG`. */
  lemma DefaultSettings(env: map<string, string>)
    ensures var s := SettingsFrom(env);
      s.enableDebugFeatures == s.debug && s.showTechnicalDetails == s.debug && s.betaMode
    ensures "ENABLE_AI_FEATURES" !in env ==> SettingsFrom(env).enableAiFeatures
    ensures "DEBUG" !in env ==> !SettingsFrom(env).debug
    ensures "ENABLE_OBS_INTEGRATION" !in env ==> !SettingsFrom(env).enableObsIntegration
    ensures "ENABLE_STREAMING_FEATURES" !in env ==> !SettingsFrom(env).enableStreamingFeatures
    ensures "BETA_AUTH_REQUIRED" !in env ==> !SettingsFrom(env).betaAuthRequired
  {
    assert Lower("True") == "true";
    assert Lower("False") == "false";
  }

  datatype FeatureFlags = FeatureFlags(ai: bool, obs: bool, streaming: bool, debug: bool)

  /** The dictionary `get_config` returns. */
  datatype Config = Config(debug: bool, appName: string, appVersion: string, betaMode: bool, features: FeatureFlags)

  /** `get_config()`: the `features` entry mirrors the class switches. */
  function GetConfig(s: Settings): (c: Config)
    ensures c.features.ai == s.enableAiFeatures && c.features.obs == s.enableObsIntegration
    ensures c.features.streaming == s.enableStreamingFeatures && c.features.debug == s.enableDebugFeatures
    ensures c.debug == s.debug && c.betaMode == s.betaMode
    ensures c.appName == AppName && c.appVersion == AppVersion
  {
    Config(s.debug, AppName, AppVersion, s.betaMode,
      FeatureFlags(s.enableAiFeatures, s.enableObsIntegration, s.enableStreamingFeatures, s.enableDebugFeatures))
  }

  /** The dictionary as the deployment reports it: its debug switch and its
      debug feature agree, beta mode is on, and with nothing set AI features
      are on and debugging, OBS and streaming are off. */
  lemma ConfigFromEnvironment(env: map<string, string>)
    ensures var c := GetConfig(SettingsFrom(env));
      c.features.debug == c.debug && c.betaMode
      && ("DEBUG" !in env ==> !c.debug)
      && ("ENABLE_AI_FEATURES" !in env ==> c.features.ai)
      && ("ENABLE_OBS_INTEGRATION" !in env ==> !c.features.obs)
      && ("ENABLE_STREAMING_FEATURES" !in env ==> !c.features.streaming)
  {
    DefaultSettings(env);
  }

  /** `is_production()`: `ENVIRONMENT` is read at the call, `DEBUG` when the
      class was defined. */
  predicate IsProduction(s: Settings, env: map<string, string>)
  {
    !s.debug && "ENVIRONMENT" in env && env["ENVIRONMENT"] == "production"
  }

  /** `get_available_ai_providers()`. */
  function AvailableAiProviders(s: Settings): seq<string>
  {
    var providers := ["simple"];
    var withOpenAI := if s.openaiApiKey != "" then providers + ["openai"] else providers;
    if s.enableAiFeatures then withOpenAI + ["ollama", "gpt-oss"] else withOpenAI
  }

  /** 'simple' always comes first; 'openai' is listed, right after it, exactly
      when a key is set; 'ollama' and 'gpt-oss' close the list exactly when AI
      features are on; no name is listed twice. */
  lemma AvailableAiProvidersShape(s: Settings)
    ensures var r := AvailableAiProviders(s);
      1 <= |r| <= 4 && r[0] == "simple" && Distinct(r)
      && ("openai" in r <==> s.openaiApiKey != "")
      && (s.openaiApiKey != "" ==> r[1] == "openai")
      && ("ollama" in r <==> s.enableAiFeatures)
      && ("gpt-oss" in r <==> s.enableAiFeatures)
      && (s.enableAiFeatures ==> r[|r| - 2..] == ["ollama", "gpt-oss"])
      && |r| == 1 + (if s.openaiApiKey != "" then 1 else 0) + (if s.enableAiFeatures then 2 else 0)
  {
    var r := AvailableAiProviders(s);
    if s.openaiApiKey != "" && s.enableAiFeatures {
      assert r == ["simple", "openai", "ollama", "gpt-oss"];
    } else if s.openaiApiKey != "" {
      assert r == ["simple", "openai"];
    } else if s.enableAiFeatures {
      assert r == ["simple", "ollama", "gpt-oss"];
    } else {
      assert r == ["simple"];
    }
  }

  /** Production needs both: `ENVIRONMENT=production` and debugging off. */
  lemma ProductionNeedsDebugOff(env: map<string, string>)
    ensures IsProduction(SettingsFrom(env), env) <==>
      !ConfigEnv.EnvFlag(env, "DEBUG", "False") && ConfigEnv.GetEnv(env, "ENVIRONMENT", "") == "production"
    ensures IsProduction(SettingsFrom(env), env) ==> !GetConfig(SettingsFrom(env)).features.debug
  {
  }
}
