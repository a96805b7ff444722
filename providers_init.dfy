/** The `ai_providers` package: the registry it fills on import and
    `get_configured_provider`, which walks the configured preference order and
    falls back to the simple responder. */
module ProvidersInit {
  import opened Common
  import opened BaseProvider
  import opened External
  import opened Backends
  import opened Registry
  import opened ConfigManager
  import Dict

  /** The catalog after the package is imported: the simple responder is
      registered first and the OpenAI class next (its module imports whether or
      not the `openai` library is installed); the Ollama registration is
      commented out; the GPT-OSS and Hugging Face classes are registered when
      their modules import (`None` when they do not). */
  function PackageCatalog(gptoss: Option<Factory>, huggingface: Option<Factory>): Dict.Table<Factory>
  {
    var base := Dict.Put(Dict.Put([], "simple", SimpleClass), "openai", OpenAIClass);
    RegisterIf(RegisterIf(base, "gpt-oss", gptoss), "huggingface", huggingface)
  }

  /** A `register` call guarded by a successful import. */
  function RegisterIf(d: Dict.Table<Factory>, name: string, f: Option<Factory>): Dict.Table<Factory>
  {
    if f.Some? then Dict.Put(d, name, f.value) else d
  }

  lemma RegisterIfGet(d: Dict.Table<Factory>, name: string, f: Option<Factory>, k: string)
    requires Dict.Valid(d)
    ensures Dict.Valid(RegisterIf(d, name, f))
    ensures Dict.Get(RegisterIf(d, name, f), k) == if k == name && f.Some? then f else Dict.Get(d, k)
  {
    if f.Some? {
      Dict.PutValid(d, name, f.value);
      Dict.PutGet(d, name, f.value, k);
    }
  }

  /** What the package's catalog holds: the simple responder and the OpenAI
      class always, Ollama never, the optional classes exactly when they
      imported, in registration order. */
  lemma PackageCatalogContents(gptoss: Option<Factory>, huggingface: Option<Factory>, k: string)
    ensures Dict.Valid(PackageCatalog(gptoss, huggingface))
    ensures Dict.Get(PackageCatalog(gptoss, huggingface), k) ==
      if k == "simple" then Some(SimpleClass)
      else if k == "openai" then Some(OpenAIClass)
      else if k == "gpt-oss" then gptoss
      else if k == "huggingface" then huggingface
      else None
  {
    var d0 := Dict.Put([], "simple", SimpleClass);
    var d1 := Dict.Put(d0, "openai", OpenAIClass);
    var d2 := RegisterIf(d1, "gpt-oss", gptoss);
    Dict.PutGet([], "simple", SimpleClass, k);
    Dict.PutValid([], "simple", SimpleClass);
    Dict.PutGet(d0, "openai", OpenAIClass, k);
    Dict.PutValid(d0, "openai", OpenAIClass);
    RegisterIfGet(d1, "gpt-oss", gptoss, k);
    RegisterIfGet(d2, "huggingface", huggingface, k);
  }

  /** The package's catalog lists its names in registration order. */
  lemma PackageCatalogKeys(gptoss: Option<Factory>, huggingface: Option<Factory>)
    ensures Dict.Keys(PackageCatalog(gptoss, huggingface))
      == ["simple", "openai"] + (if gptoss.Some? then ["gpt-oss"] else []) + (if huggingface.Some? then ["huggingface"] else [])
  {
    var d1 := Dict.Put(Dict.Put([], "simple", SimpleClass), "openai", OpenAIClass);
    BaseCatalogKeys();
    var d2 := RegisterIf(d1, "gpt-oss", gptoss);
    RegisterIfKeys(d1, "gpt-oss", gptoss);
    NoHuggingfaceYet(gptoss.Some?);
    RegisterIfKeys(d2, "huggingface", huggingface);
  }

  lemma NoHuggingfaceYet(withGptoss: bool)
    ensures "huggingface" !in ["simple", "openai"] + (if withGptoss then ["gpt-oss"] else [])
  {
    var ks := ["simple", "openai"] + (if withGptoss then ["gpt-oss"] else []);
    forall n | n in ks ensures n[0] != 'h' {
    }
  }

  lemma BaseCatalogKeys()
    ensures Dict.Keys(Dict.Put(Dict.Put([], "simple", SimpleClass), "openai", OpenAIClass)) == ["simple", "openai"]
  {
    var d0 := Dict.Put([], "simple", SimpleClass);
    assert Dict.Keys(d0) == ["simple"];
    assert "openai" != "simple" by {
      assert "openai"[0] != "simple"[0];
    }
  }

  /** A guarded `register` of a new name appends it, when the import succeeded. */
  lemma RegisterIfKeys(d: Dict.Table<Factory>, name: string, f: Option<Factory>)
    requires name !in Dict.Keys(d)
    ensures Dict.Keys(RegisterIf(d, name, f)) == Dict.Keys(d) + (if f.Some? then [name] else [])
  {
  }

  /** The module-level `registry`, built by the package's `register` calls. */
  method NewPackageRegistry(gptoss: Option<Factory>, huggingface: Option<Factory>) returns (reg: AIProviderRegistry)
    ensures fresh(reg) && reg.Valid()
    ensures reg.providers == PackageCatalog(gptoss, huggingface)
    ensures reg.instances == map[] && reg.defaultProvider == "simple"
  {
    reg := new AIProviderRegistry();
    reg.Register("simple", SimpleClass);
    reg.Register("openai", OpenAIClass);
    if gptoss.Some? {
      reg.Register("gpt-oss", gptoss.value);
    }
    if huggingface.Some? {
      reg.Register("huggingface", huggingface.value);
    }
  }

  /** The configuration `get_provider_config` hands to the class (a name
      without an entry gets none, which the provider reads as empty). */
  function ConfigOf(t: Dict.Table<ProviderConfig>, name: string): (c: Dict.Table<Value>)
    ensures Dict.Has(t, name) ==> exists i :: 0 <= i < |t| && t[i].key == name && t[i].value.config == c
    ensures !Dict.Has(t, name) ==> c == []
  {
    match Dict.Get(t, name)
    case None => []
    case Some(pc) => pc.config
  }

  /** Position of the first preference for which `create_provider` returns an
      instance (`|prefs|` when there is none). */
  function FirstCreatable(prefs: seq<string>, configs: Dict.Table<ProviderConfig>, catalog: Dict.Table<Factory>,
                          cached: set<string>, world: World): (i: nat)
    ensures i <= |prefs|
    ensures i < |prefs| ==> CreatableIn(catalog, cached, prefs[i], ConfigOf(configs, prefs[i]), false, world)
    ensures NoneCreatable(prefs, i, configs, catalog, cached, world)
  {
    if prefs == [] then 0
    else if CreatableIn(catalog, cached, prefs[0], ConfigOf(configs, prefs[0]), false, world) then 0
    else
      var k := FirstCreatable(prefs[1..], configs, catalog, cached, world);
      NoneCreatableCons(prefs, k, configs, catalog, cached, world);
      1 + k
  }

  /** The name `get_configured_provider` ends up creating. */
  function ChosenName(prefs: seq<string>, configs: Dict.Table<ProviderConfig>, catalog: Dict.Table<Factory>,
                      cached: set<string>, world: World): (name: string)
    ensures name == "simple" || name in prefs
  {
    var i := FirstCreatable(prefs, configs, catalog, cached, world);
    if i < |prefs| then prefs[i] else "simple"
  }

  /** `get_configured_provider`: optionally reload the configuration file, then
      create the first enabled provider, in priority order, that the registry
      can create with its configuration; otherwise the simple responder.
      The simple responder is registered by the package, so the result is
      always an instance. */
  method GetConfiguredProvider(reg: AIProviderRegistry, cm: AIProviderConfigManager, forceReload: bool, world: World)
    returns (r: Provider)
    requires reg.Valid() && cm.Valid()
    requires Dict.Get(reg.providers, "simple") == Some(SimpleClass)
    modifies reg, cm
    ensures reg.Valid() && cm.Valid()
    ensures reg.providers == old(reg.providers) && reg.defaultProvider == old(reg.defaultProvider)
    ensures cm.providers == if forceReload then Reload(old(cm.providers), old(cm.file)) else old(cm.providers)
    ensures !forceReload ==> cm.file == old(cm.file)
    ensures var prefs := Preferences(cm.providers);
      var i := FirstCreatable(prefs, cm.providers, reg.providers, old(reg.instances).Keys, world);
      var name := ChosenName(prefs, cm.providers, reg.providers, old(reg.instances).Keys, world);
      (name in old(reg.instances) ==> r == old(reg.instances)[name] && reg.instances == old(reg.instances))
      && (name !in old(reg.instances) ==>
            fresh(r) && reg.instances == old(reg.instances)[name := r] && Dict.Has(reg.providers, name)
            && r.ext == ExtOf(Dict.Get(reg.providers, name).value,
                              if i < |prefs| then ConfigOf(cm.providers, name) else [], world))
  {
    if forceReload {
      cm.LoadConfig();
    }
    r := SelectProvider(reg, cm, world);
  }

  /** The loop of `get_configured_provider` over the preference order. */
  method SelectProvider(reg: AIProviderRegistry, cm: AIProviderConfigManager, world: World) returns (r: Provider)
    requires reg.Valid()
    requires Dict.Get(reg.providers, "simple") == Some(SimpleClass)
    modifies reg
    ensures reg.Valid()
    ensures reg.providers == old(reg.providers) && reg.defaultProvider == old(reg.defaultProvider)
    ensures var prefs := Preferences(cm.providers);
      var i := FirstCreatable(prefs, cm.providers, reg.providers, old(reg.instances).Keys, world);
      var name := ChosenName(prefs, cm.providers, reg.providers, old(reg.instances).Keys, world);
      (name in old(reg.instances) ==> r == old(reg.instances)[name] && reg.instances == old(reg.instances))
      && (name !in old(reg.instances) ==>
            fresh(r) && reg.instances == old(reg.instances)[name := r] && Dict.Has(reg.providers, name)
            && r.ext == ExtOf(Dict.Get(reg.providers, name).value,
                              if i < |prefs| then ConfigOf(cm.providers, name) else [], world))
  {
    var prefs := Preferences(cm.providers);
    ghost var cached := reg.instances.Keys;
    var p, i := ScanPreferences(reg, cm, prefs, world);
    if p != null {
      return p;
    }
    assert ChosenName(prefs, cm.providers, reg.providers, cached, world) == "simple";
    assert Dict.Has(reg.providers, "simple");
    r := CreateSimple(reg, world);
  }

  /** The loop itself: the first preference the registry can create, at
      index `i`, or `null` with `i == |prefs|` when there is none. */
  method ScanPreferences(reg: AIProviderRegistry, cm: AIProviderConfigManager, prefs: seq<string>, world: World)
    returns (p: Provider?, i: nat)
    requires reg.Valid()
    modifies reg
    ensures reg.Valid()
    ensures reg.providers == old(reg.providers) && reg.defaultProvider == old(reg.defaultProvider)
    ensures i == FirstCreatable(prefs, cm.providers, reg.providers, old(reg.instances).Keys, world)
    ensures p == null <==> i == |prefs|
    ensures p == null ==> reg.instances == old(reg.instances)
    ensures p != null && prefs[i] in old(reg.instances) ==> p == old(reg.instances)[prefs[i]] && reg.instances == old(reg.instances)
    ensures p != null && prefs[i] !in old(reg.instances) ==>
      fresh(p) && reg.instances == old(reg.instances)[prefs[i] := p] && Dict.Has(reg.providers, prefs[i])
      && p.ext == ExtOf(Dict.Get(reg.providers, prefs[i]).value, ConfigOf(cm.providers, prefs[i]), world)
  {
    ghost var cached := reg.instances.Keys;
    i := 0;
    while i < |prefs|
      invariant 0 <= i <= |prefs|
      invariant reg.Valid()
      invariant reg.providers == old(reg.providers) && reg.defaultProvider == old(reg.defaultProvider)
      invariant reg.instances == old(reg.instances)
      invariant NoneCreatable(prefs, i, cm.providers, reg.providers, cached, world)
    {
      var config := cm.GetProviderConfig(prefs[i]).GetOr([]);
      assert config == ConfigOf(cm.providers, prefs[i]);
      p := TryPreference(reg, prefs[i], config, world);
      if p != null {
        FirstCreatableIs(prefs, cm.providers, reg.providers, cached, world, i);
        return;
      }
      NoneCreatableStep(prefs, i, cm.providers, reg.providers, cached, world);
      i := i + 1;
    }
    FirstCreatableNone(prefs, cm.providers, reg.providers, cached, world);
    p := null;
  }

  /** One step of the loop, `registry.create_provider(name, config)`. */
  method TryPreference(reg: AIProviderRegistry, name: string, config: Dict.Table<Value>, world: World) returns (p: Provider?)
    requires reg.Valid()
    modifies reg
    ensures reg.Valid()
    ensures reg.providers == old(reg.providers) && reg.defaultProvider == old(reg.defaultProvider)
    ensures p != null <==> CreatableIn(reg.providers, old(reg.instances).Keys, name, config, false, world)
    ensures p == null ==> reg.instances == old(reg.instances)
    ensures p != null && name in old(reg.instances) ==> p == old(reg.instances)[name] && reg.instances == old(reg.instances)
    ensures p != null && name !in old(reg.instances) ==>
      fresh(p) && reg.instances == old(reg.instances)[name := p] && Dict.Has(reg.providers, name)
      && p.ext == ExtOf(Dict.Get(reg.providers, name).value, config, world)
  {
    p := reg.CreateProvider(name, config, false, world);
  }

  /** The fallback after the loop, `registry.create_provider('simple')`,
      which cannot fail. */
  method CreateSimple(reg: AIProviderRegistry, world: World) returns (r: Provider)
    requires reg.Valid()
    requires Dict.Get(reg.providers, "simple") == Some(SimpleClass)
    modifies reg
    ensures reg.Valid()
    ensures reg.providers == old(reg.providers) && reg.defaultProvider == old(reg.defaultProvider)
    ensures "simple" in old(reg.instances) ==> r == old(reg.instances)["simple"] && reg.instances == old(reg.instances)
    ensures "simple" !in old(reg.instances) ==>
      fresh(r) && reg.instances == old(reg.instances)["simple" := r] && r.ext == ExtOf(SimpleClass, [], world)
  {
    SimpleAlwaysAvailable([], world);
    var p := reg.CreateProvider("simple", [], false, world);
    return p;
  }

  /** None of the first `n` preferences can be created. */
  predicate NoneCreatable(prefs: seq<string>, n: nat, configs: Dict.Table<ProviderConfig>,
                          catalog: Dict.Table<Factory>, cached: set<string>, world: World)
  {
    n <= |prefs|
    && forall j :: 0 <= j < n ==> !CreatableIn(catalog, cached, prefs[j], ConfigOf(configs, prefs[j]), false, world)
  }

  lemma NoneCreatableStep(prefs: seq<string>, n: nat, configs: Dict.Table<ProviderConfig>,
                          catalog: Dict.Table<Factory>, cached: set<string>, world: World)
    requires NoneCreatable(prefs, n, configs, catalog, cached, world) && n < |prefs|
    requires !CreatableIn(catalog, cached, prefs[n], ConfigOf(configs, prefs[n]), false, world)
    ensures NoneCreatable(prefs, n + 1, configs, catalog, cached, world)
  {
  }

  /** A failing first preference followed by `n` failing ones. */
  lemma NoneCreatableCons(prefs: seq<string>, n: nat, configs: Dict.Table<ProviderConfig>,
                          catalog: Dict.Table<Factory>, cached: set<string>, world: World)
    requires prefs != [] && NoneCreatable(prefs[1..], n, configs, catalog, cached, world)
    requires !CreatableIn(catalog, cached, prefs[0], ConfigOf(configs, prefs[0]), false, world)
    ensures NoneCreatable(prefs, n + 1, configs, catalog, cached, world)
  {
    forall j | 1 <= j < n + 1
      ensures !CreatableIn(catalog, cached, prefs[j], ConfigOf(configs, prefs[j]), false, world)
    {
      assert prefs[j] == prefs[1..][j - 1];
    }
  }

  /** The scan stops exactly at the first preference that can be created. */
  lemma FirstCreatableIs(prefs: seq<string>, configs: Dict.Table<ProviderConfig>, catalog: Dict.Table<Factory>,
                         cached: set<string>, world: World, i: nat)
    requires i < |prefs| && CreatableIn(catalog, cached, prefs[i], ConfigOf(configs, prefs[i]), false, world)
    requires NoneCreatable(prefs, i, configs, catalog, cached, world)
    ensures FirstCreatable(prefs, configs, catalog, cached, world) == i
  {
  }

  /** When no preference can be created the scan runs to the end. */
  lemma FirstCreatableNone(prefs: seq<string>, configs: Dict.Table<ProviderConfig>, catalog: Dict.Table<Factory>,
                           cached: set<string>, world: World)
    requires NoneCreatable(prefs, |prefs|, configs, catalog, cached, world)
    ensures FirstCreatable(prefs, configs, catalog, cached, world) == |prefs|
  {
  }

  /** When the simple responder is enabled in the configuration, some
      preference always succeeds, so the fallback after the loop is never
      reached. */
  lemma SimpleEnabledNeverFallsBack(configs: Dict.Table<ProviderConfig>, catalog: Dict.Table<Factory>,
                                    cached: set<string>, world: World)
    requires Dict.Valid(configs) && Dict.Has(configs, "simple") && Dict.Get(configs, "simple").value.enabled
    requires Dict.Get(catalog, "simple") == Some(SimpleClass)
    ensures FirstCreatable(Preferences(configs), configs, catalog, cached, world) < |Preferences(configs)|
  {
    var prefs := Preferences(configs);
    PreferencesExact(configs, "simple");
    var k :| 0 <= k < |prefs| && prefs[k] == "simple";
    SimpleAlwaysAvailable(ConfigOf(configs, "simple"), world);
    assert CreatableIn(catalog, cached, prefs[k], ConfigOf(configs, prefs[k]), false, world);
  }

  /** Names the catalog does not register are skipped; the first registered
      simple responder is chosen. */
  lemma UnregisteredSkipped(prefs: seq<string>, configs: Dict.Table<ProviderConfig>, catalog: Dict.Table<Factory>,
                            world: World, i: nat)
    requires i < |prefs| && Dict.Get(catalog, prefs[i]) == Some(SimpleClass)
    requires forall j :: 0 <= j < i ==> !Dict.Has(catalog, prefs[j])
    ensures FirstCreatable(prefs, configs, catalog, {}, world) == i
  {
    SimpleAlwaysAvailable(ConfigOf(configs, prefs[i]), world);
    assert NoneCreatable(prefs, i, configs, catalog, {}, world);
    FirstCreatableIs(prefs, configs, catalog, {}, world, i);
  }

  /** With the built-in configuration, the package's catalog without a GPT-OSS
      module and an empty cache, the two preferred names are not registered
      and the simple responder is chosen. */
  lemma DefaultSetupChoosesSimple(huggingface: Option<Factory>, world: World)
    ensures ChosenName(Preferences(Defaults()), Defaults(), PackageCatalog(None, huggingface), {}, world) == "simple"
    ensures FirstCreatable(Preferences(Defaults()), Defaults(), PackageCatalog(None, huggingface), {}, world) == 2
  {
    ConfigManager.DefaultPreferences();
    DefaultCatalogLookups(huggingface);
    SimpleThird(Preferences(Defaults()), Defaults(), PackageCatalog(None, huggingface), world);
  }

  lemma SimpleThird(prefs: seq<string>, configs: Dict.Table<ProviderConfig>, catalog: Dict.Table<Factory>, world: World)
    requires prefs == ["gpt-oss", "ollama", "simple"]
    requires Dict.Get(catalog, "simple") == Some(SimpleClass)
    requires !Dict.Has(catalog, "gpt-oss") && !Dict.Has(catalog, "ollama")
    ensures FirstCreatable(prefs, configs, catalog, {}, world) == 2
  {
    UnregisteredSkipped(prefs, configs, catalog, world, 2);
  }

  lemma DefaultCatalogLookups(huggingface: Option<Factory>)
    ensures var catalog := PackageCatalog(None, huggingface);
      Dict.Get(catalog, "simple") == Some(SimpleClass)
      && !Dict.Has(catalog, "gpt-oss") && !Dict.Has(catalog, "ollama")
  {
    PackageCatalogContents(None, huggingface, "gpt-oss");
    PackageCatalogContents(None, huggingface, "ollama");
    PackageCatalogContents(None, huggingface, "simple");
  }
}
