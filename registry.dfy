/** `AIProviderRegistry`: a catalog of provider classes by name and a cache of
    live instances. A provider enters the cache only when it was built
    without error and reported itself available. */
module Registry {
  import opened Common
  import opened BaseProvider
  import opened External
  import opened Backends
  import opened Emotion
  import SimpleProvider
  import Dict

  /** The preference order used when the caller gives none. */
  const DefaultPreferences: seq<string> := ["gpt-oss", "ollama", "openai", "huggingface", "simple"]

  /** `provider_class().is_available()` for the probe instance, built without configuration. */
  predicate Probe(world: World, f: Factory)
  {
    AvailableWith(f, [], world)
  }

  /** The names whose probe instance constructs and reports available, in catalog order. */
  function AvailableNames(d: Dict.Table<Factory>, world: World): (r: seq<string>)
    ensures |r| <= |d|
  {
    Dict.KeysWhere(d, f => Probe(world, f))
  }

  /** A name is listed exactly when it is registered and its class's probe is available. */
  lemma AvailableNamesExact(d: Dict.Table<Factory>, world: World, n: string)
    requires Dict.Valid(d)
    ensures n in AvailableNames(d, world) <==> Dict.Has(d, n) && AvailableWith(Dict.Get(d, n).value, [], world)
  {
    Dict.KeysWhereExact(d, f => Probe(world, f), n);
  }

  /** Position of the first preference that is available. */
  function FirstAvailable(prefs: seq<string>, available: seq<string>): (i: nat)
    ensures i <= |prefs|
    ensures i < |prefs| ==> prefs[i] in available
    ensures forall j :: 0 <= j < i ==> prefs[j] !in available
  {
    if prefs == [] then 0
    else if prefs[0] in available then 0
    else 1 + FirstAvailable(prefs[1..], available)
  }

  /** The name `get_best_available_provider` asks for: the first available
      preference, else the first available name, else none. */
  function BestChoice(prefs: seq<string>, available: seq<string>): (c: Option<string>)
    ensures c.None? <==> available == []
    ensures c.Some? ==> c.value in available
    ensures c.Some? && c.value in prefs ==> forall j :: 0 <= j < |prefs| && prefs[j] in available ==> prefs[j] == c.value || exists k :: 0 <= k < j && prefs[k] == c.value
  {
    var i := FirstAvailable(prefs, available);
    if i < |prefs| then Some(prefs[i])
    else if available != [] then Some(available[0])
    else None
  }

  /** A new instance of `f`, built without configuration, is available and
      answers "テスト" with a non-empty text (a raising answer fails). */
  predicate PassesTest(f: Factory, world: World, pick: nat)
  {
    AvailableWith(f, [], world)
    && var a := AnswerOf(ExtOf(f, [], world), Monochrome, InitialStates(), [], [], "テスト", None, world, pick);
       a.Some? && a.value != ""
  }

  /** The test result recorded for a class. */
  predicate TestVerdict(f: Factory, ok: bool, world: World, pick: nat)
  {
    ok == PassesTest(f, world, pick)
  }

  /** A class passes only when available, and the simple responder always passes. */
  lemma PassesTestBounds(f: Factory, world: World, pick: nat)
    ensures PassesTest(f, world, pick) ==> AvailableWith(f, [], world)
    ensures f == SimpleClass ==> PassesTest(f, world, pick)
  {
    if f == SimpleClass {
      SimpleProvider.DefaultAnswerNonEmpty("テスト", pick);
    }
  }

  /** `create_provider` returns an instance, given the catalog and the names
      in the cache: a cached name (unless a new instance is forced), or a
      registered class whose new instance constructs and reports available. */
  predicate CreatableIn(catalog: Dict.Table<Factory>, cached: set<string>, name: string,
                        config: Dict.Table<Value>, forceNew: bool, world: World)
  {
    (!forceNew && name in cached)
    || (Dict.Has(catalog, name) && AvailableWith(Dict.Get(catalog, name).value, config, world))
  }

  /** One entry of `get_provider_info`: the probe's status, or the constructor's
      error (reported as unavailable). */
  datatype ProviderInfo =
    | Described(className: string, available: bool, status: StatusReport)
    | Failed(className: string, error: string)

  function InfoAvailable(info: ProviderInfo): bool
  {
    info.Described? && info.available
  }

  /** What `get_provider_info` reports for class `f`: its name; a constructor
      that raises gives an error entry; otherwise the probe's availability and
      a status with no conversation and nothing learned. */
  predicate Describes(f: Factory, item: ProviderInfo, world: World)
  {
    item.className == ClassNameOf(f)
    && (InfoAvailable(item) <==> AvailableWith(f, [], world))
    && (item.Failed? <==> !Constructs(f))
    && (item.Described? ==>
          item.status.conversationCount == 0 && item.status.learnedEmotions == []
          && item.status.available == item.available)
  }

  /** One entry of `get_provider_info`: a probe instance made with no configuration. */
  method Describe(f: Factory, world: World) returns (item: ProviderInfo)
    ensures Describes(f, item, world)
  {
    var probe := Construct(f, [], world);
    if probe == null {
      item := Failed(ClassNameOf(f), "constructor raised");
    } else {
      var available := Backends.IsAvailable(probe, world);
      LearnedEmotionsOfFresh(probe);
      item := Described(ClassNameOf(f), available, probe.StatusInfo(available));
    }
  }

  /** `results` holds, name by name, a verdict on each class of `catalog`. */
  predicate VerdictsFor(catalog: Dict.Table<Factory>, results: Dict.Table<bool>, world: World, pick: nat)
  {
    VerdictsUpTo(catalog, results, |catalog|, world, pick)
  }

  /** `results` holds verdicts on the first `n` classes of `catalog`. */
  predicate VerdictsUpTo(catalog: Dict.Table<Factory>, results: Dict.Table<bool>, n: nat, world: World, pick: nat)
  {
    |results| == n <= |catalog|
    && forall j :: 0 <= j < n ==>
         results[j].key == catalog[j].key && TestVerdict(catalog[j].value, results[j].value, world, pick)
  }

  lemma VerdictsSnoc(catalog: Dict.Table<Factory>, results: Dict.Table<bool>, n: nat, ok: bool, world: World, pick: nat)
    requires VerdictsUpTo(catalog, results, n, world, pick) && n < |catalog|
    requires TestVerdict(catalog[n].value, ok, world, pick)
    ensures VerdictsUpTo(catalog, results + [Dict.Entry(catalog[n].key, ok)], n + 1, world, pick)
  {
  }

  /** Verdicts are listed under the catalog's names, in its order. */
  lemma VerdictKeys(catalog: Dict.Table<Factory>, results: Dict.Table<bool>, world: World, pick: nat)
    requires VerdictsFor(catalog, results, world, pick)
    ensures Dict.Keys(results) == Dict.Keys(catalog)
  {
  }

  /** The choice loop of `get_best_available_provider`: the first preference
      that is available, else the first available name. */
  method ChooseName(prefs: seq<string>, available: seq<string>) returns (c: Option<string>)
    ensures c == BestChoice(prefs, available)
  {
    var i := 0;
    while i < |prefs|
      invariant 0 <= i <= |prefs|
      invariant forall j :: 0 <= j < i ==> prefs[j] !in available
    {
      if prefs[i] in available {
        FirstAvailableIs(prefs, available, i);
        return Some(prefs[i]);
      }
      i := i + 1;
    }
    FirstAvailableNone(prefs, available);
    if available != [] {
      return Some(available[0]);
    }
    return None;
  }

  /** The probe loop of `get_available_providers`, in catalog order. */
  method AvailableIn(catalog: Dict.Table<Factory>, world: World) returns (names: seq<string>)
    ensures names == AvailableNames(catalog, world)
  {
    names := [];
    var i := 0;
    while i < |catalog|
      invariant 0 <= i <= |catalog|
      invariant names == Dict.KeysWhere(catalog[..i], f => Probe(world, f))
    {
      assert catalog[..i + 1][..i] == catalog[..i];
      var probe := Construct(catalog[i].value, [], world);
      if probe != null && Backends.IsAvailable(probe, world) {
        names := names + [catalog[i].key];
      }
      i := i + 1;
    }
    assert catalog[..i] == catalog;
  }

  /** The loop of `get_provider_info` over the catalog, in registration order. */
  method DescribeAll(catalog: Dict.Table<Factory>, world: World) returns (info: Dict.Table<ProviderInfo>)
    ensures Dict.Keys(info) == Dict.Keys(catalog)
    ensures forall i :: 0 <= i < |info| ==> Describes(catalog[i].value, info[i].value, world)
  {
    info := [];
    var i := 0;
    while i < |catalog|
      invariant 0 <= i <= |catalog|
      invariant |info| == i
      invariant forall j :: 0 <= j < i ==> info[j].key == catalog[j].key
      invariant forall j :: 0 <= j < i ==> Describes(catalog[j].value, info[j].value, world)
    {
      var item := Describe(catalog[i].value, world);
      info := info + [Dict.Entry(catalog[i].key, item)];
      i := i + 1;
    }
  }

  class AIProviderRegistry {
    var providers: Dict.Table<Factory>
    var instances: map<string, Provider>
    var defaultProvider: string

    /** Names are unique; every cached instance is of a registered name and is a
        well-formed provider. */
    ghost predicate Valid()
      reads this, instances.Values
    {
      Dict.Valid(providers)
      && forall n :: n in instances ==> Dict.Has(providers, n) && instances[n].Valid()
    }

    constructor ()
      ensures Valid()
      ensures providers == [] && instances == map[] && defaultProvider == "simple"
    {
      providers := [];
      instances := map[];
      defaultProvider := "simple";
    }

    /** `register`: add or replace one class; nothing else changes. */
    method Register(name: string, f: Factory)
      requires Valid()
      modifies this
      ensures Valid()
      ensures providers == Dict.Put(old(providers), name, f)
      ensures Dict.Get(providers, name) == Some(f)
      ensures forall k :: k != name ==> Dict.Get(providers, k) == Dict.Get(old(providers), k)
      ensures Dict.Keys(providers) == if Dict.Has(old(providers), name) then Dict.Keys(old(providers))
                                      else Dict.Keys(old(providers)) + [name]
      ensures instances == old(instances) && defaultProvider == old(defaultProvider)
    {
      var before := providers;
      providers := Dict.Put(providers, name, f);
      Dict.PutValid(before, name, f);
      forall k ensures Dict.Get(providers, k) == if k == name then Some(f) else Dict.Get(before, k) {
        Dict.PutGet(before, name, f, k);
      }
    }

    /** `unregister`: a registered name leaves the catalog and the cache; an
        unknown name changes nothing. */
    method Unregister(name: string)
      requires Valid()
      modifies this
      ensures Valid()
      ensures !Dict.Has(providers, name) && name !in instances
      ensures providers == Dict.Remove(old(providers), name)
      ensures instances == old(instances) - {name}
      ensures !Dict.Has(old(providers), name) ==> providers == old(providers) && instances == old(instances)
      ensures defaultProvider == old(defaultProvider)
    {
      if Dict.Has(providers, name) {
        RemoveKeepsCached(providers, instances.Keys, name);
        // the cache entry goes with the name, when there is one
        providers, instances := Dict.Remove(providers, name), instances - {name};
        forall n | n in instances
          ensures instances[n].Valid()
        {
          assert instances[n] == old(instances)[n];
        }
      } else {
        assert instances - {name} == instances;
      }
    }

    /** `get_available_providers`: probe every class in catalog order. */
    method GetAvailableProviders(world: World) returns (names: seq<string>)
      requires Valid()
      ensures names == AvailableNames(providers, world)
    {
      names := AvailableIn(providers, world);
    }

    /** `get_provider_info`: every class described by a fresh probe instance. */
    method GetProviderInfo(world: World) returns (info: Dict.Table<ProviderInfo>)
      requires Valid()
      ensures Dict.Keys(info) == Dict.Keys(providers)
      ensures forall i :: 0 <= i < |info| ==> Describes(providers[i].value, info[i].value, world)
    {
      info := DescribeAll(providers, world);
    }

    /** `create_provider` would return an instance. */
    predicate Creatable(name: string, config: Dict.Table<Value>, forceNew: bool, world: World)
      reads this
    {
      CreatableIn(providers, instances.Keys, name, config, forceNew, world)
    }

    /** `create_provider`. Without `force_new` a cached instance is returned as
        is. Otherwise an unknown name, a constructor that raises, or an
        unavailable instance gives `null` and leaves the cache alone; an
        available new instance replaces the cache entry. */
    method CreateProvider(name: string, config: Dict.Table<Value>, forceNew: bool, world: World) returns (r: Provider?)
      requires Valid()
      modifies this
      ensures Valid()
      ensures providers == old(providers) && defaultProvider == old(defaultProvider)
      ensures r != null <==> old(Creatable(name, config, forceNew, world))
      ensures r != null ==> r.Valid()
      ensures !forceNew && name in old(instances) ==> r == old(instances)[name] && instances == old(instances)
      ensures (forceNew || name !in old(instances)) ==>
        if r == null then instances == old(instances)
        else fresh(r) && instances == old(instances)[name := r]
             && r.ext == ExtOf(Dict.Get(providers, name).value, config, world)
             && r.config == config && r.history == [] && r.states == InitialStates() && r.stage == Monochrome
    {
      if !forceNew && name in instances {
        return instances[name];
      }
      if !Dict.Has(providers, name) {
        return null;
      }
      var f := Dict.Get(providers, name).value;
      var instance := Construct(f, config, world);
      if instance == null {
        return null;
      }
      if !Backends.IsAvailable(instance, world) {
        return null;
      }
      instances := instances[name := instance];
      r := instance;
    }

    /** `get_best_available_provider`: create the first available preference
        (the default order when none is given), else the first available name.
        Whenever anything is available the result is an instance. */
    method GetBestAvailableProvider(preferences: Option<seq<string>>, world: World) returns (r: Provider?)
      requires Valid()
      modifies this
      ensures Valid()
      ensures r != null ==> r.Valid()
      ensures providers == old(providers) && defaultProvider == old(defaultProvider)
      ensures var c := BestChoice(if preferences.None? then DefaultPreferences else preferences.value,
                                  AvailableNames(old(providers), world));
        (c.None? ==> r == null && instances == old(instances))
        && (c.Some? && c.value in old(instances) ==> r == old(instances)[c.value] && instances == old(instances))
        && (c.Some? && c.value !in old(instances) ==> r != null && fresh(r) && instances == old(instances)[c.value := r])
    {
      var prefs := if preferences.None? then DefaultPreferences else preferences.value;
      var available := GetAvailableProviders(world);
      var c := ChooseName(prefs, available);
      if c.None? {
        return null;
      }
      AvailableNamesExact(providers, world, c.value);
      r := CreateProvider(c.value, [], false, world);
    }

    /** `set_default_provider`: only a registered name is accepted. */
    method SetDefaultProvider(name: string)
      requires Valid()
      modifies this
      ensures Valid()
      ensures defaultProvider == if Dict.Has(providers, name) then name else old(defaultProvider)
      ensures providers == old(providers) && instances == old(instances)
    {
      if Dict.Has(providers, name) {
        defaultProvider := name;
      }
    }

    /** `get_default_provider`. */
    method GetDefaultProvider(world: World) returns (r: Provider?)
      requires Valid()
      modifies this
      ensures Valid()
      ensures providers == old(providers) && defaultProvider == old(defaultProvider)
      ensures r != null <==> old(Creatable(defaultProvider, [], false, world))
      ensures defaultProvider in old(instances) ==> r == old(instances)[defaultProvider] && instances == old(instances)
      ensures defaultProvider !in old(instances) ==>
        if r == null then instances == old(instances)
        else fresh(r) && instances == old(instances)[defaultProvider := r]
             && r.ext == ExtOf(Dict.Get(providers, defaultProvider).value, [], world)
             && r.config == [] && r.history == [] && r.states == InitialStates() && r.stage == Monochrome
    {
      r := CreateProvider(defaultProvider, [], false, world);
    }

    /** `list_providers`: every registered name with its class name. */
    function ListProviders(): (r: Dict.Table<string>)
      reads this
      ensures Dict.Keys(r) == Dict.Keys(providers)
      ensures forall i :: 0 <= i < |r| ==> r[i].value == ClassNameOf(providers[i].value)
    {
      Dict.MapValues(providers, ClassNameOf)
    }

    /** `test_all_providers`: a fresh instance of every registered class answers
        "テスト"; the result is whether that produced a non-empty text. Every
        name gets its class's verdict, in catalog order. */
    method TestAllProviders(world: World, pick: nat) returns (results: Dict.Table<bool>)
      requires Valid()
      modifies this
      ensures Valid()
      ensures providers == old(providers) && defaultProvider == old(defaultProvider)
      ensures Dict.Keys(results) == Dict.Keys(providers)
      ensures VerdictsFor(providers, results, world, pick)
      ensures forall i :: 0 <= i < |results| ==> results[i].value == PassesTest(providers[i].value, world, pick)
    {
      results := [];
      var i := 0;
      while i < |providers|
        invariant 0 <= i <= |providers|
        invariant Valid()
        invariant providers == old(providers) && defaultProvider == old(defaultProvider)
        invariant VerdictsUpTo(providers, results, i, world, pick)
      {
        var e := providers[i];
        Dict.GetAt(providers, i);
        var ok := TestOne(e.key, world, pick);
        VerdictsSnoc(providers, results, i, ok, world, pick);
        results := results + [Dict.Entry(e.key, ok)];
        i := i + 1;
      }
      VerdictKeys(providers, results, world, pick);
    }

    /** One name of `test_all_providers`: `create_provider(name, force_new=True)`
        then the answer to "テスト". An available new instance replaces the
        cache entry before it is asked; otherwise the cache stays. */
    method TestOne(name: string, world: World, pick: nat) returns (ok: bool)
      requires Valid() && Dict.Has(providers, name)
      modifies this
      ensures Valid()
      ensures providers == old(providers) && defaultProvider == old(defaultProvider)
      ensures ok == PassesTest(Dict.Get(providers, name).value, world, pick)
      ensures AvailableWith(Dict.Get(providers, name).value, [], world) ==>
        name in instances && fresh(instances[name]) && instances == old(instances)[name := instances[name]]
      ensures !AvailableWith(Dict.Get(providers, name).value, [], world) ==> instances == old(instances)
    {
      var p := CreateProvider(name, [], true, world);
      ok := false;
      if p != null {
        label created:
        ok := AnswersTest(p, world, pick);
        forall n | n in instances
          ensures instances[n].Valid()
        {
          var q := instances[n];
          if q != p {
            assert q.Valid() == old@created(q.Valid());
          }
        }
      }
    }

    /** The probe of one instance: it answers "テスト" with a non-empty text,
        by its class's own rule; a new simple responder always does. */
    static method AnswersTest(p: Provider, world: World, pick: nat) returns (ok: bool)
      requires p.Valid()
      modifies p
      ensures p.Valid()
      ensures old(p.ext) == SimpleExt(SimpleProvider.DefaultResponses()) ==> ok
      ensures ok == (var a := AnswerOf(old(p.ext), old(p.stage), old(p.states), old(p.history), old(p.config),
                                       "テスト", None, world, pick);
                     a.Some? && a.value != "")
    {
      SimpleProvider.DefaultAnswerNonEmpty("テスト", pick);
      var response := GenerateResponse(p, "テスト", None, world, pick);
      ok := response.Ok? && response.value.text != "";
    }

    /** `clear_cache`: the cache empties; the catalog stays. */
    method ClearCache()
      modifies this
      ensures instances == map[]
      ensures providers == old(providers) && defaultProvider == old(defaultProvider)
    {
      instances := map[];
    }
  }

  /** Removing one name from the catalog keeps it well formed and keeps every
      other cached name registered. */
  lemma RemoveKeepsCached(d: Dict.Table<Factory>, cached: set<string>, name: string)
    requires Dict.Valid(d) && forall n :: n in cached ==> Dict.Has(d, n)
    ensures Dict.Valid(Dict.Remove(d, name))
    ensures forall n :: n in cached - {name} ==> Dict.Has(Dict.Remove(d, name), n)
  {
    Dict.RemoveValid(d, name);
    forall n | n in cached - {name} ensures Dict.Has(Dict.Remove(d, name), n) {
      assert Dict.Get(Dict.Remove(d, name), n) == Dict.Get(d, n);
    }
  }

  /** A provider that has learned nothing lists no learned emotions. */
  lemma LearnedEmotionsOfFresh(p: Provider)
    requires p.Valid() && p.states == InitialStates()
    ensures p.LearnedEmotions() == []
  {
    CountLearnedNone(AllEmotions, p.states);
  }

  lemma FirstAvailableIs(prefs: seq<string>, available: seq<string>, i: nat)
    requires i < |prefs| && prefs[i] in available
    requires forall j :: 0 <= j < i ==> prefs[j] !in available
    ensures FirstAvailable(prefs, available) == i
  {
    if i > 0 {
      FirstAvailableIs(prefs[1..], available, i - 1);
    }
  }

  lemma FirstAvailableNone(prefs: seq<string>, available: seq<string>)
    requires forall j :: 0 <= j < |prefs| ==> prefs[j] !in available
    ensures FirstAvailable(prefs, available) == |prefs|
  {
    if prefs != [] {
      FirstAvailableNone(prefs[1..], available);
    }
  }
}
