/** The pluggable `RuriCharacter`: a character that answers through whatever
    provider its own registry gives it, and otherwise through a small keyword
    fallback. It keeps its own history of the last fifty exchanges. */
module CharacterAINew {
  import opened Common
  import opened Emotion
  import opened External
  import opened BaseProvider
  import opened Backends
  import opened Registry
  import Dict

  const CharacterName: string := "ルリ"
  const HistoryLimit: nat := 50

  /** `json.dumps(default_profile, ensure_ascii=False)`, the context handed to a
      new provider. */
  const ProfileJson: string := "{\"name\": \"ルリ\", \"origin\": \"戯曲『あいのいろ』\", \"personality\": \"純粋で好奇心旺盛、感情学習中\", \"speaking_style\": \"丁寧で親しみやすい\", \"color_stage\": \"monochrome\", \"learned_emotions\": [], \"background\": \"感情を学んで色づいていく特殊な体質を持つ\"}"

  /** One history entry; `timestamp` is `datetime.now().isoformat()`. */
  datatype Exchange = Exchange(timestamp: string, user: string, assistant: string)

  // ---------------------------------------------------------------------------
  // The keyword fallback
  // ---------------------------------------------------------------------------

  const GreetingWords: seq<string> := ["こんにちは", "はじめまして", "おはよう"]
  const ColorWords: seq<string> := ["色", "カラー"]
  const FeelingWords: seq<string> := ["感情", "気持ち"]

  const GreetingText: string := "こんにちは！私は" + CharacterName + "です。よろしくお願いします！"
  const ColorText: string := "色について、私はまだ学習中です。どんな色について教えていただけますか？"
  const FeelingText: string := "感情って不思議ですね。私も少しずつ理解できるようになってきました。"

  /** `fallback_responses`. */
  const FallbackPool: seq<string> := [
    "そうですね...",
    "なるほど、面白いですね！",
    "もう少し詳しく教えていただけますか？",
    "私も同じように感じることがあります。",
    "とても興味深いお話ですね。"]

  /** Which branch of `_generate_fallback_response` answers. */
  datatype FallbackKind = GreetingReply | ColorReply | FeelingReply | PoolReply

  function FallbackKindOf(message: string): FallbackKind
  {
    var lowered := Lower(message);
    if AnyContained(GreetingWords, lowered) then GreetingReply
    else if AnyContained(ColorWords, lowered) then ColorReply
    else if AnyContained(FeelingWords, lowered) then FeelingReply
    else PoolReply
  }

  /** The text of `_generate_fallback_response`; `pick` is `random.choice`'s draw. */
  function FallbackText(message: string, pick: nat): string
  {
    match FallbackKindOf(message)
    case GreetingReply => GreetingText
    case ColorReply => ColorText
    case FeelingReply => FeelingText
    case PoolReply => Pick(FallbackPool, pick)
  }

  /** Only the pool branch records the exchange. */
  function FallbackHistory(h: seq<Exchange>, message: string, pick: nat, now: string): seq<Exchange>
  {
    if FallbackKindOf(message) == PoolReply then AppendBounded(h, Exchange(now, message, FallbackText(message, pick)), HistoryLimit)
    else h
  }

  /** The keyword branches are tried greeting first, then colour, then
      feeling; they answer with a fixed text and record nothing. Only a
      message without any keyword draws from the pool, and that exchange is
      recorded, the fifty most recent kept. */
  lemma FallbackPrecedence(h: seq<Exchange>, message: string, pick: nat, now: string)
    ensures AnyContained(GreetingWords, Lower(message)) ==>
      FallbackText(message, pick) == GreetingText && FallbackHistory(h, message, pick, now) == h
    ensures !AnyContained(GreetingWords, Lower(message)) && AnyContained(ColorWords, Lower(message)) ==>
      FallbackText(message, pick) == ColorText && FallbackHistory(h, message, pick, now) == h
    ensures (!AnyContained(GreetingWords, Lower(message)) && !AnyContained(ColorWords, Lower(message))
             && AnyContained(FeelingWords, Lower(message))) ==>
      FallbackText(message, pick) == FeelingText && FallbackHistory(h, message, pick, now) == h
    ensures FallbackKindOf(message) == PoolReply <==>
      !AnyContained(GreetingWords + ColorWords + FeelingWords, Lower(message))
    ensures FallbackKindOf(message) == PoolReply ==>
      FallbackText(message, pick) in FallbackPool
      && FallbackHistory(h, message, pick, now) == AppendBounded(h, Exchange(now, message, FallbackText(message, pick)), HistoryLimit)
  {
    var lowered := Lower(message);
    AnyContainedConcat(GreetingWords, ColorWords + FeelingWords, lowered);
    AnyContainedConcat(ColorWords, FeelingWords, lowered);
    assert GreetingWords + ColorWords + FeelingWords == GreetingWords + (ColorWords + FeelingWords);
  }

  /** A keyword list hits when either half does. */
  lemma AnyContainedConcat(a: seq<string>, b: seq<string>, s: string)
    ensures AnyContained(a + b, s) <==> AnyContained(a, s) || AnyContained(b, s)
  {
    if AnyContained(a + b, s) {
      var i :| 0 <= i < |a + b| && Contains(s, (a + b)[i]);
      if i >= |a| {
        assert b[i - |a|] == (a + b)[i];
      }
    }
    if AnyContained(a, s) {
      var i :| 0 <= i < |a| && Contains(s, a[i]);
      assert (a + b)[i] == a[i];
    }
    if AnyContained(b, s) {
      var i :| 0 <= i < |b| && Contains(s, b[i]);
      assert (a + b)[|a| + i] == b[i];
    }
  }

  /** The provider's keyword analysis keyed by `emotion.value`, in the order
      of its keyword table. */
  function AnalysisByValue(text: string): (t: Dict.Table<real>)
    ensures |t| == |AllEmotions|
  {
    seq(|AllEmotions|, i requires 0 <= i < |AllEmotions| =>
      Dict.Entry(EmotionValue(AllEmotions[i]), EmotionAnalysis(text)[AllEmotions[i]]))
  }

  /** Each emotion's value looks up that emotion's score. */
  lemma AnalysisByValueLookup(text: string, e: EmotionType)
    ensures Dict.Get(AnalysisByValue(text), EmotionValue(e)) == Some(AnalysisScore(e, text))
  {
    var t := AnalysisByValue(text);
    var i := Ordinal(e);
    forall j | 0 <= j < i ensures t[j].key != t[i].key {
      AllEmotionsDistinct();
      if t[j].key == t[i].key {
        EmotionValueInjective(AllEmotions[j], AllEmotions[i]);
      }
    }
    Dict.GetFirst(t, i);
  }

  /** Only emotion values are keys. */
  lemma AnalysisByValueKeys(text: string, k: string)
    requires Dict.Has(AnalysisByValue(text), k)
    ensures exists x :: EmotionValue(x) == k
  {
    var t := AnalysisByValue(text);
    var r := Dict.Get(t, k);
    var j :| 0 <= j < |t| && t[j] == Dict.Entry(k, r.value);
    assert EmotionValue(AllEmotions[j]) == k;
  }

  /** What `get_character_status` reports; the profile as its JSON text. */
  datatype CharacterStatus = CharacterStatus(
    name: string,
    provider: string,
    conversationCount: nat,
    profile: string,
    aiStatus: Option<StatusReport>)

  /** `get_color_stage_info`: the provider's colour report, or the fixed
      monochrome record when there is no provider. */
  datatype StageInfo =
    | ProviderColors(report: ColorReport)
    | FixedStage(stage: string, dominantEmotion: string, dominantIntensity: real)

  class RuriCharacter {
    /** `AI_PROVIDERS_AVAILABLE`: the providers package imported. */
    const providersImported: bool
    /** The character's own `AIProviderRegistry`. */
    const registry: AIProviderRegistry
    var aiProvider: Provider?
    var providerName: string
    var history: seq<Exchange>

    ghost predicate Valid()
      reads this, aiProvider, registry, registry.instances.Values
    {
      registry.Valid() && (aiProvider != null ==> aiProvider.Valid())
      && (!providersImported ==> aiProvider == null)
      && |history| <= HistoryLimit
    }

    /** `RuriCharacter(ai_provider, provider_config)`. The registry is a new,
        empty one, so neither a requested name nor the automatic choice finds
        a class: every new character starts on the fallback. */
    constructor (requested: Option<string>, config: Dict.Table<Value>, providersImported: bool, world: World)
      ensures Valid() && fresh(registry)
      ensures registry.providers == [] && registry.instances == map[]
      ensures aiProvider == null && providerName == "fallback" && history == []
    {
      this.providersImported := providersImported;
      registry := new AIProviderRegistry();
      aiProvider := null;
      providerName := "fallback";
      history := [];
      new;
      if providersImported {
        InitializeAIProvider(requested, config, world);
        assert BestChoice(DefaultPreferences, AvailableNames([], world)).None?;
      }
    }

    /** `_initialize_ai_provider`: the requested name (when non-empty) or the
        registry's best available provider; a provider found is named and
        given the character profile as its context. */
    method InitializeAIProvider(requested: Option<string>, config: Dict.Table<Value>, world: World)
      requires Valid() && providersImported && aiProvider == null
      modifies this, registry, registry.instances.Values
      ensures Valid()
      ensures registry.providers == old(registry.providers) && history == old(history)
      ensures requested.Some? && requested.value != "" ==>
        (aiProvider != null <==> old(registry.Creatable(requested.value, config, false, world)))
        && providerName == (if aiProvider != null then requested.value else old(providerName))
      ensures requested.None? || requested.value == "" ==>
        (aiProvider != null <==> BestChoice(DefaultPreferences, AvailableNames(registry.providers, world)).Some?)
        && providerName == (if aiProvider != null then ClassName(aiProvider.ext) else old(providerName))
      ensures aiProvider != null ==> aiProvider.characterContext == ProfileJson
    {
      var p := FindProvider(requested, config, world);
      if p != null {
        Adopt(p, if requested.Some? && requested.value != "" then requested.value else ClassName(p.ext));
      }
    }

    /** The provider `_initialize_ai_provider` asks the registry for. */
    method FindProvider(requested: Option<string>, config: Dict.Table<Value>, world: World) returns (p: Provider?)
      requires registry.Valid()
      modifies registry
      ensures registry.Valid() && registry.providers == old(registry.providers)
      ensures p != null ==> p.Valid() && (fresh(p) || p in old(registry.instances.Values))
      ensures requested.Some? && requested.value != "" ==>
        (p != null <==> old(registry.Creatable(requested.value, config, false, world)))
      ensures requested.None? || requested.value == "" ==>
        (p != null <==> BestChoice(DefaultPreferences, AvailableNames(registry.providers, world)).Some?)
    {
      if requested.Some? && requested.value != "" {
        p := registry.CreateProvider(requested.value, config, false, world);
      } else {
        p := registry.GetBestAvailableProvider(None, world);
      }
    }

    /** `set_character_context(json.dumps(profile))` on a provider that may
        also sit in the registry's cache. */
    method GiveProfile(p: Provider)
      requires registry.Valid() && p.Valid()
      modifies p
      ensures registry.Valid() && p.Valid()
      ensures p.characterContext == ProfileJson && p.ext == old(p.ext)
    {
      p.SetCharacterContext(ProfileJson);
      forall n | n in registry.instances
        ensures registry.instances[n].Valid()
      {
        var q := registry.instances[n];
        if q != p {
          assert q.Valid() == old(q.Valid());
        }
      }
    }

    /** What the current provider answers to `message`; `None` without a
        provider or when its `generate_response` raises. */
    function ProviderAnswer(message: string, ctx: Option<Context>, world: World, pick: nat): Option<string>
      reads this, aiProvider
    {
      if aiProvider == null then None
      else Backends.AnswerOf(aiProvider.ext, aiProvider.stage, aiProvider.states, aiProvider.history,
                             aiProvider.config, message, ctx, world, pick)
    }

    /** The chunks the current provider's stream yields; `None` without a
        provider or when the stream raises before its first chunk. */
    function ProviderStream(message: string, world: World, pick: nat): Option<seq<string>>
      reads this, aiProvider
    {
      if aiProvider == null then None
      else Backends.StreamOf(aiProvider.ext, aiProvider.stage, aiProvider.states, aiProvider.history,
                             message, world, pick)
    }

    /** `generate_response(message, context)`. A provider answer is recorded and
        returned; a provider that raises, or no provider, gives the fallback. */
    method GenerateResponse(message: string, ctx: Option<Context>, world: World, pick: nat, now: string)
      returns (text: string)
      requires Valid()
      modifies this, aiProvider
      ensures Valid()
      ensures aiProvider == old(aiProvider) && providerName == old(providerName)
      ensures old(aiProvider) == null ==>
        text == FallbackText(message, pick) && history == FallbackHistory(old(history), message, pick, now)
      ensures (history == AppendBounded(old(history), Exchange(now, message, text), HistoryLimit))
        || (text == FallbackText(message, pick) && history == FallbackHistory(old(history), message, pick, now))
      ensures old(aiProvider) != null && (old(aiProvider.ext).OpenAIExt? || old(aiProvider.ext).OllamaExt?) ==>
        history == AppendBounded(old(history), Exchange(now, message, text), HistoryLimit)
      ensures old(aiProvider) != null && old(aiProvider.ext).OtherExt? && old(aiProvider.ext).reply.Some? ==>
        text == old(aiProvider.ext).reply.value && history == AppendBounded(old(history), Exchange(now, message, text), HistoryLimit)
      ensures old(aiProvider) != null && old(aiProvider.ext).OtherExt? && old(aiProvider.ext).reply.None? ==>
        text == FallbackText(message, pick) && history == FallbackHistory(old(history), message, pick, now)
      ensures var a := old(ProviderAnswer(message, ctx, world, pick));
        (a.Some? ==> text == a.value && history == AppendBounded(old(history), Exchange(now, message, text), HistoryLimit))
        && (a.None? ==> text == FallbackText(message, pick) && history == FallbackHistory(old(history), message, pick, now))
    {
      if aiProvider != null {
        var r := Backends.GenerateResponse(aiProvider, message, ctx, world, pick);
        if r.Ok? {
          UpdateConversationHistory(message, r.value.text, now);
          return r.value.text;
        }
      }
      text := GenerateFallbackResponse(message, pick, now);
    }

    /** `generate_stream_response(message, context)`: the chunks yielded. A
        provider stream is passed through and its concatenation recorded when
        non-empty; without a provider, or when the stream raises, the fallback
        text is yielded one character at a time. */
    method GenerateStreamResponse(message: string, ctx: Option<Context>, world: World, pick: nat, now: string)
      returns (chunks: seq<string>)
      requires Valid()
      modifies this, aiProvider
      ensures Valid()
      ensures aiProvider == old(aiProvider) && providerName == old(providerName)
      ensures old(aiProvider) == null || old(aiProvider.ext).OpenAIExt?
              || (old(aiProvider.ext).OtherExt? && old(aiProvider.ext).stream.None?) ==>
        chunks == Chars(FallbackText(message, pick)) && history == FallbackHistory(old(history), message, pick, now)
      ensures old(aiProvider) != null && old(aiProvider.ext).OllamaExt? ==>
        history == if Concat(chunks) == "" then old(history)
                   else AppendBounded(old(history), Exchange(now, message, Concat(chunks)), HistoryLimit)
      ensures (history == if Concat(chunks) == "" then old(history)
                          else AppendBounded(old(history), Exchange(now, message, Concat(chunks)), HistoryLimit))
        || (chunks == Chars(FallbackText(message, pick)) && history == FallbackHistory(old(history), message, pick, now))
      ensures var st := old(ProviderStream(message, world, pick));
        (st.Some? ==> chunks == st.value)
        && (st.None? ==> chunks == Chars(FallbackText(message, pick)) && history == FallbackHistory(old(history), message, pick, now))
    {
      if aiProvider != null {
        var r := Backends.GenerateStream(aiProvider, message, ctx, world, pick);
        if r.Ok? {
          var full := Concat(r.value);
          if full != "" {
            UpdateConversationHistory(message, full, now);
          }
          return r.value;
        }
      }
      var text := GenerateFallbackResponse(message, pick, now);
      chunks := Chars(text);
    }

    /** `_generate_fallback_response(message)`. */
    method GenerateFallbackResponse(message: string, pick: nat, now: string) returns (text: string)
      requires Valid()
      modifies this
      ensures Valid()
      ensures text == FallbackText(message, pick)
      ensures history == FallbackHistory(old(history), message, pick, now)
      ensures aiProvider == old(aiProvider) && providerName == old(providerName)
    {
      var lowered := Lower(message);
      if AnyContained(GreetingWords, lowered) {
        return GreetingText;
      }
      if AnyContained(ColorWords, lowered) {
        return ColorText;
      }
      if AnyContained(FeelingWords, lowered) {
        return FeelingText;
      }
      text := Pick(FallbackPool, pick);
      UpdateConversationHistory(message, text, now);
    }

    /** `_update_conversation_history`: append one exchange and keep the fifty
        most recent. */
    method UpdateConversationHistory(user: string, assistant: string, now: string)
      requires Valid()
      modifies this
      ensures Valid()
      ensures history == AppendBounded(old(history), Exchange(now, user, assistant), HistoryLimit)
      ensures aiProvider == old(aiProvider) && providerName == old(providerName)
    {
      history := history + [Exchange(now, user, assistant)];
      if |history| > HistoryLimit {
        history := PyTail(history, HistoryLimit);
      }
    }

    /** `switch_ai_provider(provider_name, config)`: a new instance of the named
        class replaces the provider and its name and is given the profile; when
        none can be made (or the package is missing) nothing changes. */
    method SwitchAIProvider(name: string, config: Dict.Table<Value>, world: World) returns (ok: bool)
      requires Valid()
      modifies this, registry
      ensures Valid()
      ensures ok <==> providersImported && old(registry.Creatable(name, config, true, world))
      ensures ok ==> providerName == name && aiProvider != null && fresh(aiProvider)
                     && aiProvider.characterContext == ProfileJson
                     && Dict.Has(registry.providers, name) && Constructs(Dict.Get(registry.providers, name).value)
                     && aiProvider.ext == ExtOf(Dict.Get(registry.providers, name).value, config, world)
      ensures !ok ==> aiProvider == old(aiProvider) && providerName == old(providerName)
      ensures history == old(history) && registry.providers == old(registry.providers)
    {
      if !providersImported {
        return false;
      }
      var p := registry.CreateProvider(name, config, true, world);
      if p == null {
        return false;
      }
      ghost var f := Dict.Get(registry.providers, name).value;
      assert Constructs(f) && p.ext == ExtOf(f, config, world);
      Adopt(p, name);
      ok := true;
    }

    /** Makes `p` the current provider under `name` and gives it the profile. */
    method Adopt(p: Provider, name: string)
      requires registry.Valid() && p.Valid() && providersImported && |history| <= HistoryLimit
      modifies this, p
      ensures Valid() && history == old(history)
      ensures aiProvider == p && providerName == name
      ensures p.characterContext == ProfileJson && p.ext == old(p.ext)
    {
      aiProvider := p;
      providerName := name;
      GiveProfile(p);
    }

    /** `get_available_providers`: the registry's list, or `["fallback"]`
        without the package. */
    method GetAvailableProviders(world: World) returns (names: seq<string>)
      requires Valid()
      ensures names == if providersImported then AvailableNames(registry.providers, world) else ["fallback"]
    {
      if providersImported {
        names := registry.GetAvailableProviders(world);
      } else {
        names := ["fallback"];
      }
    }

    /** `test_all_providers`: the registry's results, or `{"fallback": True}`
        without the package. */
    method TestAllProviders(world: World, pick: nat) returns (results: Dict.Table<bool>)
      requires Valid()
      modifies registry
      ensures Valid()
      ensures registry.providers == old(registry.providers)
      ensures !providersImported ==> results == [Dict.Entry("fallback", true)]
      ensures providersImported ==>
        Dict.Keys(results) == Dict.Keys(registry.providers) && VerdictsFor(registry.providers, results, world, pick)
    {
      if providersImported {
        results := registry.TestAllProviders(world, pick);
      } else {
        results := [Dict.Entry("fallback", true)];
      }
    }

    /** `generate_response_async`: every provider's coroutine runs its own
        `generate_response`, so this answers as `generate_response` does. */
    method GenerateResponseAsync(message: string, ctx: Option<Context>, world: World, pick: nat, now: string)
      returns (text: string)
      requires Valid()
      modifies this, aiProvider
      ensures Valid()
      ensures aiProvider == old(aiProvider) && providerName == old(providerName)
      ensures old(aiProvider) == null ==>
        text == FallbackText(message, pick) && history == FallbackHistory(old(history), message, pick, now)
      ensures (history == AppendBounded(old(history), Exchange(now, message, text), HistoryLimit))
        || (text == FallbackText(message, pick) && history == FallbackHistory(old(history), message, pick, now))
      ensures var a := old(ProviderAnswer(message, ctx, world, pick));
        (a.Some? ==> text == a.value && history == AppendBounded(old(history), Exchange(now, message, text), HistoryLimit))
        && (a.None? ==> text == FallbackText(message, pick) && history == FallbackHistory(old(history), message, pick, now))
    {
      text := GenerateResponse(message, ctx, world, pick, now);
    }

    /** `generate_stream_response_sync(message)`: `generate_response` without a context. */
    method GenerateStreamResponseSync(message: string, world: World, pick: nat, now: string) returns (text: string)
      requires Valid()
      modifies this, aiProvider
      ensures Valid()
      ensures aiProvider == old(aiProvider) && providerName == old(providerName)
      ensures old(aiProvider) == null ==>
        text == FallbackText(message, pick) && history == FallbackHistory(old(history), message, pick, now)
      ensures (history == AppendBounded(old(history), Exchange(now, message, text), HistoryLimit))
        || (text == FallbackText(message, pick) && history == FallbackHistory(old(history), message, pick, now))
      ensures var a := old(ProviderAnswer(message, None, world, pick));
        (a.Some? ==> text == a.value && history == AppendBounded(old(history), Exchange(now, message, text), HistoryLimit))
        && (a.None? ==> text == FallbackText(message, pick) && history == FallbackHistory(old(history), message, pick, now))
    {
      text := GenerateResponse(message, None, world, pick, now);
    }

    /** `analyze_emotion_from_text`: the provider's analysis keyed by emotion
        value, or `{"neutral": 0.5}` without a provider. */
    function AnalyzeEmotionFromText(text: string): (r: Dict.Table<real>)
      reads this
      ensures aiProvider == null ==> r == [Dict.Entry("neutral", 0.5)]
      ensures aiProvider != null ==> forall e :: Dict.Get(r, EmotionValue(e)) == Some(AnalysisScore(e, text))
    {
      if aiProvider == null then [Dict.Entry("neutral", 0.5)]
      else
        var t := AnalysisByValue(text);
        assert forall e :: Dict.Get(t, EmotionValue(e)) == Some(AnalysisScore(e, text)) by {
          forall e ensures Dict.Get(t, EmotionValue(e)) == Some(AnalysisScore(e, text)) {
            AnalysisByValueLookup(text, e);
          }
        }
        t
    }

    /** `get_character_status`: the name, the provider name, the number of
        exchanges, the profile, and the provider's own status when there is one. */
    function GetCharacterStatus(world: World): (s: CharacterStatus)
      requires Valid()
      reads this, aiProvider, registry, registry.instances.Values
      ensures s.name == CharacterName && s.provider == providerName && s.profile == ProfileJson
      ensures s.conversationCount == |history| <= HistoryLimit
      ensures s.aiStatus.Some? <==> aiProvider != null
      ensures s.aiStatus.Some? ==>
        s.aiStatus.value.providerName == ClassName(aiProvider.ext)
        && s.aiStatus.value.available == IsAvailable(aiProvider, world)
        && s.aiStatus.value.conversationCount == |aiProvider.history|
    {
      CharacterStatus(CharacterName, providerName, |history|, ProfileJson,
        if aiProvider == null then None else Some(aiProvider.StatusInfo(IsAvailable(aiProvider, world))))
    }

    /** `get_color_stage_info`. */
    function GetColorStageInfo(): (info: StageInfo)
      requires Valid()
      reads this, aiProvider, registry, registry.instances.Values
      ensures aiProvider == null ==> info == FixedStage("monochrome", "neutral", 0.0)
      ensures aiProvider != null ==> info.ProviderColors? && info.report.stage == StageValue(aiProvider.stage)
    {
      if aiProvider == null then FixedStage("monochrome", "neutral", 0.0)
      else ProviderColors(aiProvider.ColorInfo())
    }
  }
}
