# AITuber Ruri — a Dafny model of the responder and configuration core

Ruri is an AI "VTuber" character: a web front end lets visitors chat with her.
She gains colour as she learns emotions, moving from monochrome to partial
colour, then rainbow, then full colour. This project models, in Dafny, the
logic behind the web pages:

- **The pluggable responder layer.**
  - A registry of provider classes with an instance cache (`Registry`).
  - The shared provider state: eight emotion states, a colour stage and a
    fifty-turn history (`BaseProvider`).
  - The always-available keyword responder (`SimpleProvider`).
  - The deterministic parts of the OpenAI and Ollama wrappers
    (`OpenAIProvider`, `OllamaProvider`), with dispatch in `Backends`.
  - The package's registration and its configured-provider fallback chain
    (`ProvidersInit`).
  - The user-editable provider table and preference order (`ConfigManager`).
- **The emotion ledger.** Levels per emotion, interaction counts, the learning
  history and its persisted record (`EmotionLedger`, with the enums in
  `Emotion`).
- **The three character facades.** The original `RuriCharacter`
  (`CharacterAI`), the pluggable one (`CharacterAINew`) and the gpt-oss one
  (`RuriGptOss`).
- **Configuration.**
  - The `.env` line grammar (`EnvLine`).
  - The two key resolvers (`ConfigEnv`, `ApiConfig`).
  - The production switches (`ProductionConfig`).
  - The access-level tables (`UnifiedConfig`).
  - The administrator's settings file with masked keys, hashed passwords and
    encrypted API keys (`SecureConfig`).
- **Chat history.** A bounded history in the session state, with tuple
  round-trips, a persistent copy, text export and the response generator
  (`Chat`).

`Common` and `Dict` hold shared sequence, string and ordered-dictionary
helpers. `External` gathers in one `World` value everything outside the
program:
- which client libraries import;
- the environment and the Streamlit secrets;
- the answers of the completion services.

Every service call is a function of what is sent, and random choices are
indices passed in. A run of the model is therefore determined by its inputs.

Each class whose fields the Python code updates in place is a Dafny `class`.
Its methods carry `modifies` clauses and state the whole new state. The pure
queries and tables are functions, and the properties that relate several
calls are lemmas.

Some behaviour of the repository is modelled as written, although it is
probably not what was meant:
- The pluggable `RuriCharacter` builds a new, empty registry of its own
  (src/character_ai_new.py:41). It therefore never obtains a provider and
  always answers with its keyword fallback.
- The chat manager's response generator imports the original
  `RuriCharacter`, which has no `generate_response`. When that import
  succeeds, every answer is the error text with model information `"error"`.
- `get_raw_password` returns the stored bcrypt hash, not the password.
- `APIConfig.get_api_key("openai")` rejects only the OpenAI placeholder, so
  the generic placeholder passes as a key.
- `is_provider_available` in src/ai_providers/config_env.py compares with
  the placeholder case-sensitively, so an upper-case placeholder counts as a
  key.

## Model

| member | source | states |
|---|---|---|
| Registry.AvailableNamesExact | src/ai_providers/registry.py:28-39 | a name is listed by `get_available_providers` exactly when it is registered and a probe instance of its class, built without configuration, constructs and reports available |
| Registry.AvailableIn | src/ai_providers/registry.py:30-39 | the probe loop returns exactly those names, in catalog order |
| Registry.FirstAvailable | src/ai_providers/registry.py:102-104 | the position found is the first preference that is available: every earlier preference is unavailable |
| Registry.BestChoice | src/ai_providers/registry.py:101-111 | the chosen name is `None` exactly when nothing is available; otherwise it is an available name, and when it is a preference, no earlier preference was available |
| Registry.ChooseName | src/ai_providers/registry.py:101-111 | the loop over the preferences (stopping at the first available one) then the fallback to the first available name computes `BestChoice` |
| Registry.Describe | src/ai_providers/registry.py:44-57 | one `get_provider_info` entry: the class name; an error entry exactly when the constructor raises; `available` exactly when the probe reports available; the status of a fresh instance shows no turns and nothing learned |
| Registry.DescribeAll | src/ai_providers/registry.py:41-58 | one entry per registered name, in catalog order, each describing its own class |
| Registry.VerdictsSnoc | src/ai_providers/registry.py:135-145 | adding the next class's exact verdict keeps the results aligned with the catalog |
| Registry.VerdictKeys | src/ai_providers/registry.py:132-147 | the test results are keyed by exactly the registered names, in order |
| Registry.AIProviderRegistry.constructor | src/ai_providers/registry.py:10-13 | empty catalog, empty cache, default name "simple" |
| Registry.AIProviderRegistry.Register | src/ai_providers/registry.py:15-18 | the name maps to the new class (an existing name keeps its position, a new one is appended); every other catalog entry, the cache and the default are unchanged |
| Registry.AIProviderRegistry.Unregister | src/ai_providers/registry.py:20-26 | a registered name leaves both the catalog and the cache; an unknown name changes nothing |
| Registry.AIProviderRegistry.GetAvailableProviders | src/ai_providers/registry.py:28-39 | the result is `AvailableNames` of the catalog |
| Registry.AIProviderRegistry.GetProviderInfo | src/ai_providers/registry.py:41-58 | one description per registered name, in order |
| Registry.AIProviderRegistry.CreateProvider | src/ai_providers/registry.py:60-89 | without `force_new` a cached instance is returned identically and nothing is built; an unknown name, a raising constructor or an unavailable instance gives `None` and leaves the cache alone; an available new instance (the class's fields, the given config, no history, nothing learned, monochrome) enters the cache; the catalog never changes |
| Registry.AIProviderRegistry.GetBestAvailableProvider | src/ai_providers/registry.py:91-111 | `create_provider` of `BestChoice` over the available names, using the default preference list when none is given; `None` with the cache unchanged when nothing is available |
| Registry.AIProviderRegistry.SetDefaultProvider | src/ai_providers/registry.py:113-119 | only a registered name becomes the default |
| Registry.AIProviderRegistry.GetDefaultProvider | src/ai_providers/registry.py:121-123 | `create_provider` of the default name: the cached instance when there is one; otherwise a new available instance of the default class enters the cache, or `None` with the cache unchanged |
| Registry.AIProviderRegistry.ListProviders | src/ai_providers/registry.py:125-130 | every registered name, in order, with its class name |
| Registry.AIProviderRegistry.TestAllProviders | src/ai_providers/registry.py:132-147 | a result for every registered name, in catalog order, and each result is exactly whether a new instance of that class is available and answers "テスト" with a non-empty text (`PassesTest`) |
| Registry.AIProviderRegistry.TestOne | src/ai_providers/registry.py:136-145 | `create_provider(name, force_new=True)` then the test: the verdict is exactly `PassesTest` of the class; an available class's fresh instance replaces the cache entry, otherwise the cache is unchanged |
| Registry.AIProviderRegistry.AnswersTest | src/ai_providers/registry.py:140-141 | the verdict is exactly whether the instance's class answers "テスト" with a non-empty text (`AnswerOf` of its state before the call), a raising answer failing; a fresh simple responder always passes |
| Registry.PassesTestBounds | src/ai_providers/registry.py:136-145 | a class passes the test only when a new instance is available, and the simple responder always passes |
| Registry.AIProviderRegistry.ClearCache | src/ai_providers/registry.py:149-152 | the cache becomes empty; the catalog and the default are unchanged |
| Registry.RemoveKeepsCached | src/ai_providers/registry.py:22-25 | removing a name keeps the catalog's names unique and every other cached name registered |
| Registry.FirstAvailableIs | src/ai_providers/registry.py:102-104 | the first available preference is found at its position |
| Registry.FirstAvailableNone | src/ai_providers/registry.py:106-108 | when no preference is available the scan runs off the end |
| Emotion.Ordinal | src/ai_providers/base_provider.py:6-15 | each emotion's position in the enumeration order |
| Emotion.AllEmotionsComplete | src/ai_providers/base_provider.py:6-15 | iterating `EmotionType` visits every emotion |
| Emotion.AllEmotionsDistinct | src/ai_providers/base_provider.py:6-15 | and visits each once |
| Emotion.EmotionValueInjective | src/ai_providers/base_provider.py:6-15 | two emotions with the same `.value` are the same emotion |
| Emotion.StageRank | src/ai_providers/base_provider.py:17-22 | the four stages in their order, monochrome lowest |
| Emotion.StageFromValue | src/emotion_system.py:222 | `ColorStage(v)` succeeds only on a stage's own value |
| Emotion.StageValueRoundTrip | src/emotion_system.py:196-222 | `ColorStage(stage.value)` gives the stage back |
| Emotion.KeywordScore | src/ai_providers/base_provider.py:149-151 | `min(1, hits * step)` lies in [0, 1] and is positive exactly when some keyword occurs |
| Emotion.AboveOneStep | src/ai_providers/simple_provider.py:66-68 | a score above one step needs at least two keyword hits, and two hits are enough |
| BaseProvider.ProviderStage | src/ai_providers/base_provider.py:121-132 | 0 learned gives monochrome, 1-2 partial, 3-5 rainbow, 6 or more full |
| BaseProvider.ProviderStageMonotone | src/ai_providers/base_provider.py:121-132 | more learned emotions never give a lower stage |
| BaseProvider.InitialStates | src/ai_providers/base_provider.py:62-69 | every emotion has a state naming it, with intensity 0, not learned, no hue |
| BaseProvider.CountLearned | src/ai_providers/base_provider.py:123 | the learned count is at most the number of emotions counted |
| BaseProvider.LearnedCount | src/ai_providers/base_provider.py:123 | at most eight emotions are learned |
| BaseProvider.CountLearnedNone | src/ai_providers/base_provider.py:62-69 | with nothing learned the count is 0 |
| BaseProvider.CountLearnedMonotone | src/ai_providers/base_provider.py:112-123 | a state map that keeps every learned flag counts no fewer learned emotions |
| BaseProvider.LearnedValues | src/ai_providers/base_provider.py:161-164 | the listed values are exactly the learned emotions, one per learned emotion |
| BaseProvider.Clamp01 | src/ai_providers/base_provider.py:115 | `max(0, min(1, x))`: in [0, 1], the identity inside, the nearest bound outside |
| BaseProvider.EmotionAnalysis | src/ai_providers/base_provider.py:134-153 | every emotion is scored, each as `min(1, 0.3 * hits)` over its own keyword list |
| BaseProvider.AnalysisThresholds | src/ai_providers/base_provider.py:149-151 | a score is in [0, 1], positive exactly when a keyword occurs, and above 0.3 exactly when two do |
| BaseProvider.ScoreList | src/ai_providers/base_provider.py:148-151 | the scores in the enumeration order the dictionary was filled in |
| BaseProvider.Dominant | src/ai_providers/simple_provider.py:57 | `max` by score picks a highest score, and on a tie the earliest emotion |
| BaseProvider.Strongest | src/ai_providers/base_provider.py:171-175 | the emotion with the highest intensity, the earliest on a tie |
| BaseProvider.Absorbed | src/ai_providers/simple_provider.py:56-68 | when the dominant emotion scores above 0.3 it is recorded with its score and marked learned; otherwise nothing changes; no other emotion changes, no hue changes and the learned count never falls |
| BaseProvider.Provider.constructor | src/ai_providers/base_provider.py:48-69 | the given config, empty character context, empty history, all emotions at 0 and unlearned, monochrome |
| BaseProvider.Provider.SetCharacterContext | src/ai_providers/base_provider.py:97-99 | replaces the character context and nothing else |
| BaseProvider.Provider.AddConversation | src/ai_providers/base_provider.py:101-110 | appends one turn and keeps the 50 most recent, newest last; nothing else changes |
| BaseProvider.Provider.UpdateEmotionState | src/ai_providers/base_provider.py:112-119 | sets that emotion's intensity clamped into [0, 1] and its `learned` flag, leaves the other emotions alone; the learned count and the stage never decrease |
| BaseProvider.Provider.Absorb | src/ai_providers/simple_provider.py:56-68 | the states become `Absorbed` of the message; history and config are untouched |
| BaseProvider.Provider.UpdateColorStage | src/ai_providers/base_provider.py:121-132 | the stage is recomputed from the learned count, so the provider invariant holds again |
| BaseProvider.Provider.LearnedEmotions | src/ai_providers/base_provider.py:161-164 | the listed values are exactly the learned emotions, and the stage agrees with their number |
| BaseProvider.Provider.StatusInfo | src/ai_providers/base_provider.py:155-167 | the class name, availability, `conversation_count` equal to the history length (at most 50), the stage value matching the number of learned emotions listed |
| BaseProvider.Provider.ColorInfo | src/ai_providers/base_provider.py:169-186 | the stage value; a dominant emotion of maximal intensity, the earliest on a tie; `emotion_colors` holds exactly the emotions with a hue, each with its own hue |
| BaseProvider.FreshProvider | src/ai_providers/base_provider.py:48-69 | a fresh provider has all eight emotions valid, none learned, and is monochrome |
| Backends.ExtOf | src/ai_providers/registry.py:76-77 | a new instance's class fields belong to the class it was built from |
| Backends.SimpleAlwaysAvailable | src/ai_providers/simple_provider.py:47-49 | the simple responder is available whatever the configuration and the world |
| Backends.Construct | src/ai_providers/registry.py:76-77 | `provider_class(config)`: `None` exactly when the constructor raises, otherwise a fresh, well-formed provider with the given config, no history and nothing learned |
| Backends.GenerateResponse | src/ai_providers/base_provider.py:76-81 | the call dispatches on the class and answers what that class's own `generate_response` answers (`AnswerOf`): it raises exactly when that is `None`, and otherwise the text is that answer; the simple responder fails exactly when its pool is missing or empty, keeps its history and absorbs the message when it answers; the OpenAI provider keeps history, states and stage; an Ollama provider that is unavailable or whose call fails answers like a fresh simple responder and changes nothing, otherwise it records one turn (keeping 50) and absorbs the message |
| Backends.WhoAnswers | src/ai_providers/base_provider.py:76-95 | the OpenAI and Ollama providers always answer, the simple one with its default pools always answers, a class outside the model answers its reply; the OpenAI provider never streams, the Ollama one always does, the simple one exactly when it answers (the characters of its answer), and a class outside the model yields its own chunks |
| Backends.GenerateStream | src/ai_providers/base_provider.py:90-95 | `async for` over the stream collects exactly the chunks `StreamOf` gives for the class: the simple responder's answer character by character (absorbing the message, history kept), the Ollama provider's chunks (one turn recorded and the message absorbed after a complete non-empty stream, nothing otherwise), a class outside the model its own chunks; the OpenAI stream is a plain generator, so iterating it with `async for` raises before anything changes |
| ProvidersInit.RegisterIfGet | src/ai_providers/__init__.py:31-47 | a `register` guarded by a successful import adds that one name when the import succeeded and changes nothing else |
| ProvidersInit.PackageCatalogContents | src/ai_providers/__init__.py:19-47 | the package's catalog maps "simple" to the simple responder and "openai" to the OpenAI class always, never registers "ollama", and registers "gpt-oss" and "huggingface" exactly when their modules import |
| ProvidersInit.PackageCatalogKeys | src/ai_providers/__init__.py:19-47 | the catalog lists its names in registration order |
| ProvidersInit.NoHuggingfaceYet | src/ai_providers/__init__.py:43-47 | "huggingface" is a new name when it is registered |
| ProvidersInit.BaseCatalogKeys | src/ai_providers/__init__.py:19-35 | after the two unconditional registrations the names are "simple", "openai" |
| ProvidersInit.RegisterIfKeys | src/ai_providers/__init__.py:31-47 | a guarded registration of a new name appends it exactly when the import succeeded |
| ProvidersInit.NewPackageRegistry | src/ai_providers/__init__.py:19-47 | the module-level registry holds the package catalog, an empty cache and the default "simple" |
| ProvidersInit.ConfigOf | src/ai_providers/__init__.py:58 | `get_provider_config(name)`: the entry's own config, or none for an unknown name |
| ProvidersInit.FirstCreatable | src/ai_providers/__init__.py:57-62 | the position found is a preference the registry can create with its configuration, and no earlier preference can be created |
| ProvidersInit.ChosenName | src/ai_providers/__init__.py:57-65 | the name created is a preference or, after the loop, "simple" |
| ProvidersInit.GetConfiguredProvider | src/ai_providers/__init__.py:50-65 | optionally reloads the configuration, then returns `create_provider` of the first preference that yields an instance, with that preference's config, else of "simple"; a cached instance is returned whatever the config; the result is never `None` |
| ProvidersInit.SelectProvider | src/ai_providers/__init__.py:55-65 | the preference loop followed by the fallback to "simple" |
| ProvidersInit.ScanPreferences | src/ai_providers/__init__.py:57-62 | the loop stops at `FirstCreatable`, returning that preference's instance; when nothing succeeds it returns `None` and the cache is unchanged |
| ProvidersInit.TryPreference | src/ai_providers/__init__.py:58-60 | one step: an instance exactly when the registry can create that name with its configuration |
| ProvidersInit.CreateSimple | src/ai_providers/__init__.py:64-65 | `create_provider('simple')` always returns an instance: the cached one, or a new simple responder that enters the cache |
| ProvidersInit.NoneCreatableStep | src/ai_providers/__init__.py:57-62 | one more failing preference extends the failing prefix |
| ProvidersInit.NoneCreatableCons | src/ai_providers/__init__.py:57-62 | a failing first preference followed by a failing prefix fails throughout |
| ProvidersInit.FirstCreatableIs | src/ai_providers/__init__.py:57-62 | the scan stops exactly at the first preference that can be created |
| ProvidersInit.FirstCreatableNone | src/ai_providers/__init__.py:64-65 | when no preference can be created the scan runs to the end and the fallback is used |
| ProvidersInit.SimpleEnabledNeverFallsBack | src/ai_providers/__init__.py:57-65 | when "simple" is enabled in the configuration some preference always succeeds |
| ProvidersInit.UnregisteredSkipped | src/ai_providers/__init__.py:25-29 | names the catalog does not register are skipped until a registered simple responder |
| ProvidersInit.DefaultSetupChoosesSimple | src/ai_providers/__init__.py:25-29 | with the built-in preferences [gpt-oss, ollama, simple], no GPT-OSS module and an empty cache, the third preference, "simple", is created |
| ProvidersInit.SimpleThird | src/ai_providers/__init__.py:57-62 | with the first two preferences unregistered, the scan stops at the third |
| ProvidersInit.DefaultCatalogLookups | src/ai_providers/__init__.py:22-41 | without a GPT-OSS module neither "gpt-oss" nor "ollama" is registered, and "simple" is |
| SimpleProvider.DefaultResponses | src/ai_providers/simple_provider.py:15-45 | the built-in pools: one per category, in the order greeting, emotion, color, learning, default, each with at least three answers and no empty answer |
| SimpleProvider.CategoryNamesDistinct | src/ai_providers/simple_provider.py:17-45 | the five category names are distinct |
| SimpleProvider.PoolsNonEmpty | src/ai_providers/simple_provider.py:18-44 | every built-in pool holds at least three answers, none of them empty |
| SimpleProvider.New | src/ai_providers/simple_provider.py:11-13 | a fresh provider with the built-in pools and the given config |
| SimpleProvider.CategoryName | src/ai_providers/simple_provider.py:110-124 | every category the cascade returns has a built-in pool |
| SimpleProvider.DetermineCategory | src/ai_providers/simple_provider.py:101-124 | the chosen category's words occur in the lower-cased message and no earlier category's words do; the default category is chosen only when nothing matched |
| SimpleProvider.ChooseAnswer | src/ai_providers/simple_provider.py:64 | `random.choice(responses[category])`: an answer exactly when the category's pool exists and is non-empty, and then it comes from that pool |
| SimpleProvider.DefaultAlwaysAnswers | src/ai_providers/simple_provider.py:15-64 | with the built-in pools every message gets an answer |
| SimpleProvider.DefaultAnswerNonEmpty | src/ai_providers/simple_provider.py:15-64 | with the built-in pools every answer is a non-empty text |
| SimpleProvider.Respond | src/ai_providers/simple_provider.py:56-81 | the response carries the chosen text, the dominant emotion with its score (a maximal score, the earliest emotion on a tie), the given stage, and metadata naming the category and the detected scores |
| SimpleProvider.GenerateResponse | src/ai_providers/simple_provider.py:51-81 | a missing or empty pool raises before anything changes; otherwise the answer comes from the category's pool, the states become `Absorbed` of the message, the stage is the one after the update, and the history is never touched |
| SimpleProvider.GenerateStream | src/ai_providers/simple_provider.py:89-99 | the same answer and state change as `generate_response`, yielded one character per chunk; the chunks concatenate to the text |
| SimpleProvider.SplitChars | src/ai_providers/simple_provider.py:97-98 | one single-character chunk per character, and the chunks joined give the text back |
| SimpleProvider.FallbackResponse | src/ai_providers/simple_provider.py:11-81 | what a fresh simple responder answers: a non-empty text from the pool of the message's category, with the simple metadata |
| SimpleProvider.Fallback | src/ai_providers/simple_provider.py:11-81 | `SimpleAIProvider().generate_response(message)` gives `FallbackResponse` |
| SimpleProvider.FallbackStream | src/ai_providers/simple_provider.py:89-99 | `SimpleAIProvider().generate_stream_response(message)` yields the characters of `FallbackResponse` |
| SimpleProvider.SetCustomResponses | src/ai_providers/simple_provider.py:126-128 | `dict.update`: a category given reads its new pool, every other category keeps its pool, no category is lost; the existing categories keep their order and the new ones follow in the given order; nothing else changes |
| Dict.UpdateKeyOrder | src/ai_providers/simple_provider.py:126-128 | `d.update(u)` keeps the keys of `d` in place and appends the keys of `u` not yet present, in `u`'s order |
| SimpleProvider.AddResponsePattern | src/ai_providers/simple_provider.py:130-134 | exactly one category is extended (or created, last) by the given answers; every other pool is unchanged |
| SimpleProvider.ResponseStatsOf | src/ai_providers/simple_provider.py:136-145 | the categories in order, each with its pool's size, and the total number of answers |
| SimpleProvider.TotalIsSumOfCounts | src/ai_providers/simple_provider.py:139-144 | `total_patterns` is the sum of the per-category counts |
| SimpleProvider.CountsPrefix | src/ai_providers/simple_provider.py:141-144 | counting the first `n` pools gives the first `n` counts |
| SimpleProvider.DefaultStats | src/ai_providers/simple_provider.py:15-145 | the built-in pools hold 17 answers in the five categories |
| OpenAIProvider.New | src/ai_providers/openai_provider.py:27-30 | a fresh provider with no client and the model "gpt-4o-mini" |
| OpenAIProvider.AvailableMeansKey | src/ai_providers/openai_provider.py:32-37 | available exactly when the library is installed and `APIConfig` finds a non-placeholder OpenAI key; never without the library |
| OpenAIProvider.ResolveKey | src/ai_providers/openai_provider.py:91-106 | the key comes from the environment when it is set there, then from the secrets, and only then from `config['api_key']` |
| OpenAIProvider.EnvPlaceholderShadowsSecret | src/ai_providers/openai_provider.py:94-108 | a placeholder in the environment hides a real secret: the provider reports itself available, yet the key `generate_response` resolves is rejected |
| OpenAIProvider.RoleMessages | src/ai_providers/openai_provider.py:133-138 | only history entries whose role is user or assistant become messages, in order |
| OpenAIProvider.BuildMessages | src/ai_providers/openai_provider.py:121-144 | the assembled list equals `Messages`: the optional system message, the chat-role entries among the ten latest, then the user message |
| OpenAIProvider.AppendRoleMessages | src/ai_providers/openai_provider.py:132-138 | the history loop appends exactly the chat-role entries, in order |
| OpenAIProvider.MessagesShape | src/ai_providers/openai_provider.py:121-144 | the user message is last; a system message comes first exactly when a character context is given; at most 12 messages; every one in between is a user or assistant message |
| OpenAIProvider.NoKeyResponse | src/ai_providers/openai_provider.py:111-117 | the fixed "no key" text, joy, intensity 0, `error = "no_api_key"` |
| OpenAIProvider.ErrorResponse | src/ai_providers/openai_provider.py:164-171 | the text is "OpenAI APIエラー: " followed by the exception text; joy, intensity 0, the error in the metadata |
| OpenAIProvider.GenerateResponse | src/ai_providers/openai_provider.py:84-171 | without a client, an unusable key gives the "no key" response and a usable key creates the client (an error response without the library); the reply is stripped and sent back with intensity 0.7, a failure becomes the error response; the emotion is always joy; history, states and stage never change; the result is `Response` of the state before the call |
| OpenAIProvider.ResponseKinds | src/ai_providers/openai_provider.py:84-171 | every response is joy at the current stage; it carries intensity 0.7 exactly when a client exists or can be created and the service answers, and then its text is the stripped answer; otherwise it is the "no key" response or starts with the error prefix |
| OpenAIProvider.GenerateStream | src/ai_providers/openai_provider.py:180-186 | a single item, the same response `generate_response` gives in this state, with history and states unchanged |
| OllamaProvider.ExtFor | src/ai_providers/ollama_provider.py:11-20 | the model, host and port read from the config with the defaults llama2, localhost and 11434; `base_url` is "http://{host}:{port}"; a client exactly when the library imports |
| OllamaProvider.DefaultBaseUrl | src/ai_providers/ollama_provider.py:13-16 | without configuration the base URL is "http://localhost:11434" and the model llama2 |
| OllamaProvider.New | src/ai_providers/ollama_provider.py:11-20 | a fresh provider with those fields and the given config |
| OllamaProvider.SystemPromptShowsNone | src/ai_providers/ollama_provider.py:66-74 | the prompt's learned-emotions slot reads "なし" exactly when no emotion is learned |
| OllamaProvider.LearnedValuesShape | src/ai_providers/ollama_provider.py:66-69 | every learned value is non-empty and cannot be mistaken for "なし" |
| OllamaProvider.Pairs | src/ai_providers/ollama_provider.py:92-94 | two messages per turn |
| OllamaProvider.BuildMessages | src/ai_providers/ollama_provider.py:89-97 | the assembled list equals `Messages`: the system prompt, a user/assistant pair for each of the last five turns, then the user message |
| OllamaProvider.MessagesShape | src/ai_providers/ollama_provider.py:89-97 | the system message first, the user message last, and 2 + 2 * min(5, n) messages in all |
| OllamaProvider.GenerateResponse | src/ai_providers/ollama_provider.py:76-140 | when unavailable or when the call fails, the answer is a fresh simple responder's and nothing changes; otherwise the reply is returned with the dominant emotion and its score, the states become `Absorbed` of the message and exactly one turn is recorded (keeping 50); the text is `ReplyText` of the state before the call |
| OllamaProvider.GenerateStream | src/ai_providers/ollama_provider.py:152-212 | unavailable: the fresh simple responder's chunks; a stream that raises: what it yielded, then the fallback's chunks, nothing recorded; a complete stream: its fragments, and one turn with their concatenation plus the emotion update exactly when that concatenation is non-empty; the chunks are `StreamChunks` of the state before the call |
| OllamaProvider.Relay | src/ai_providers/ollama_provider.py:189-194 | every fragment is passed on, and the accumulated text is their concatenation |
| OllamaProvider.AvailableModels | src/ai_providers/ollama_provider.py:214-223 | no models when unavailable, otherwise the server's list |
| OllamaProvider.SetModel | src/ai_providers/ollama_provider.py:225-234 | the model changes (in the field and in `config`) only to a listed name; otherwise nothing changes; history and states never change |
| OllamaProvider.UnlistedModelRefused | src/ai_providers/ollama_provider.py:214-234 | an unavailable server lists nothing, so `set_model` refuses every name |
| EmotionLedger.Detection | src/emotion_system.py:48-71 | every emotion is scored in [0, 1], and a score is positive exactly when one of that emotion's keywords occurs |
| EmotionLedger.KeywordHits | src/emotion_system.py:65-69 | the inner loop adds 0.2 per keyword found and caps at 1: `min(1, 0.2 * hits)` |
| EmotionLedger.DetectEmotionFromText | src/emotion_system.py:48-71 | the loop over the emotions computes `Detection` of the text |
| EmotionLedger.ScoredStep | src/emotion_system.py:64-69 | scoring the next emotion extends the scored prefix |
| EmotionLedger.ScoredAll | src/emotion_system.py:64-71 | once all eight are scored the result is `Detection` |
| EmotionLedger.Learned | src/emotion_system.py:73-81 | the new level is old + intensity capped at 1, the old level counting 0 when absent; every other level is unchanged |
| EmotionLedger.CountAbove | src/emotion_system.py:104 | the count of levels above 0.1 is at most the number of emotions counted |
| EmotionLedger.LearnedCount | src/emotion_system.py:104 | at most eight levels exceed 0.1 |
| EmotionLedger.LedgerStage | src/emotion_system.py:102-113 | at most one level above 0.1 gives monochrome, 2-3 partial, 4-5 rainbow, 6 or more full |
| EmotionLedger.LedgerStageMonotone | src/emotion_system.py:102-113 | more levels above 0.1 never give an earlier stage |
| EmotionLedger.CountAboveMonotone | src/emotion_system.py:104 | levels that keep every level above 0.1 count no fewer |
| EmotionLedger.LearnMonotone | src/emotion_system.py:73-113 | learning with a non-negative intensity never lowers the count above 0.1 nor the stage, and never lowers the learned level |
| EmotionLedger.CountAboveAbsent | src/emotion_system.py:104 | emotions without a level do not count |
| EmotionLedger.CountAboveSingle | src/emotion_system.py:104 | a single level counts at most once |
| EmotionLedger.FirstLearningStaysMonochrome | src/emotion_system.py:102-113 | one emotion learned on a fresh ledger, however strongly, leaves the stage monochrome |
| EmotionLedger.StageColors | src/emotion_system.py:124-152 | every stage's own entries start with a bubble colour |
| EmotionLedger.Palette | src/emotion_system.py:115-152 | the four base colours come first, then the stage's entries, starting with the bubble colour |
| EmotionLedger.PaletteHasBaseColors | src/emotion_system.py:117-152 | every palette maps the four base names to their colours and has a bubble colour |
| EmotionLedger.BaseLookup | src/emotion_system.py:117-122 | a base colour is found under its name in any palette that starts with the base colours |
| EmotionLedger.BaseColorsFirst | src/emotion_system.py:117-122 | the four base names differ |
| EmotionLedger.GrowthLevel | src/emotion_system.py:181-190 | at most 1, and 0 for an empty ledger |
| EmotionLedger.SumLevelsBounds | src/emotion_system.py:187 | with levels in [0, 1] the sum lies between 0 and the number of emotions, and reaches it exactly when each level is 1 |
| EmotionLedger.GrowthLevelRange | src/emotion_system.py:181-190 | with levels in [0, 1] the growth level is in [0, 1] and is 1 exactly when all eight emotions are fully learned |
| EmotionLedger.BubbleColor | src/emotion_system.py:154-179 | the palette's bubble colour, except that past monochrome, with a current emotion and growth above 0.5, the emotion's own colour |
| EmotionLedger.EmotionFromValue | src/emotion_system.py:219 | `EmotionType(v)` succeeds only on an emotion's own value |
| EmotionLedger.EmotionValueRoundTrip | src/emotion_system.py:195-219 | `EmotionType(e.value)` gives the emotion back |
| EmotionLedger.LevelTable | src/emotion_system.py:195 | one entry per learned emotion at most |
| EmotionLedger.ParseLevelsSnoc | src/emotion_system.py:218-220 | reading one more entry adds its level, or fails when its key names no emotion |
| EmotionLedger.ParseLevelTable | src/emotion_system.py:195-220 | reading back the written levels of some emotions gives exactly those levels |
| EmotionLedger.LevelTableRoundTrip | src/emotion_system.py:195-220 | reading back the written levels gives the same levels |
| EmotionLedger.SaveRecord | src/emotion_system.py:192-200 | the record holds at most the 100 newest history steps |
| EmotionLedger.Restored | src/emotion_system.py:208-232 | a missing file changes nothing; only a readable record changes the count and the history |
| EmotionLedger.SaveRestore | src/emotion_system.py:192-224 | restoring a written record gives back the levels, the stage, the interaction count and the newest 100 steps, whatever the state before |
| EmotionLedger.RestoreFailure | src/emotion_system.py:228-232 | a record that fails to restore resets only the levels and the stage |
| EmotionLedger.EmotionSystem.constructor | src/emotion_system.py:32-46 | an empty ledger, then the record file read into it |
| EmotionLedger.EmotionSystem.LearnEmotion | src/emotion_system.py:73-100 | the level becomes `Learned`, exactly one step recording the emotion, the intensity and the new level is appended, the stage is recomputed, the count goes up by one, the record is saved, and the new level is returned |
| EmotionLedger.EmotionSystem.UpdateColorStage | src/emotion_system.py:102-113 | the counting loop sets the stage to `LedgerStage` of the count above 0.1; nothing else changes |
| EmotionLedger.EmotionSystem.SaveEmotionData | src/emotion_system.py:192-206 | the record file becomes `SaveRecord` of the state; the state is unchanged |
| EmotionLedger.EmotionSystem.LoadEmotionData | src/emotion_system.py:208-232 | the state becomes `Restored` of the record file |
| EmotionLedger.EmotionSystem.GetCurrentColorPalette | src/emotion_system.py:115-152 | at least six entries, the base colours first |
| EmotionLedger.EmotionSystem.GetGrowthLevel | src/emotion_system.py:181-190 | at most 1, and 0 when nothing is learned |
| EmotionLedger.EmotionSystem.GetStatusSummary | src/emotion_system.py:234-242 | the stage value, the growth level of the ledger, the interaction count, the number of levels above 0.1, and levels that read back as the ledger's own |
| EnvLine.Unquote | src/ai_providers/config_env.py:50 | the value, stripped of whitespace, then `"`, then `'`, neither starts nor ends with `'` |
| EnvLine.ParseLine | src/ai_providers/config_env.py:45-50 | a line is skipped exactly when, stripped, it is empty, starts with `#` or has no `=`; an assignment's key is stripped and holds no `=`, and its value does not start or end with `'` |
| EnvLine.Assignments | src/ai_providers/config_env.py:44-50 | one parse per line, in order |
| EnvLine.CommentSkipped | src/ai_providers/config_env.py:46 | a commented-out assignment assigns nothing |
| EnvLine.KeyClean | src/ai_providers/config_env.py:48-49 | the key cut before the first `=` holds no `=` and stripping it again changes nothing |
| EnvLine.StripIdempotent | src/ai_providers/config_env.py:45 | stripping a stripped line changes nothing |
| ConfigEnv.GetEnv | src/ai_providers/config_env.py:82 | the variable's value when set, the default otherwise |
| ConfigEnv.ManualLoadEnv | src/ai_providers/config_env.py:40-53 | the environment after the file's assignments, as `ManualEntries` gives it |
| ConfigEnv.AssignAll | src/ai_providers/config_env.py:44-51 | the assignment loop computes `ManualEntries`, stopping at the first illegal name |
| ConfigEnv.ManualUntouched | src/ai_providers/config_env.py:44-51 | a variable no line assigns keeps its value or stays absent |
| ConfigEnv.ManualLastWins | src/ai_providers/config_env.py:44-51 | without illegal names a variable holds the value of its last assignment, overriding what was set before |
| ConfigEnv.ManualStopsAtIllegal | src/ai_providers/config_env.py:42-53 | the lines after an illegal name have no effect |
| ConfigEnv.LoadStreamlitSecrets | src/ai_providers/config_env.py:55-66 | without secrets nothing changes; otherwise the loop computes `SecretEntries` |
| ConfigEnv.SecretsKeepEnv | src/ai_providers/config_env.py:62 | a secret never overrides a variable already present |
| ConfigEnv.SecretsFill | src/ai_providers/config_env.py:61-63 | without illegal names an absent variable receives its secret |
| ConfigEnv.LoadEnvironment | src/ai_providers/config_env.py:14-39 | python-dotenv's result when it is installed, else the file's assignments when `.env` exists, then the secrets |
| ConfigEnv.KeyOfLower | src/ai_providers/config_env.py:70-78 | a selected row's name is the lower-cased name itself |
| ConfigEnv.KeyNameRoundTrip | src/ai_providers/config_env.py:70-78 | each row is selected by its own name |
| ConfigEnv.KeyOf | src/ai_providers/config_env.py:80 | a selected row's name is the provider name lower-cased |
| ConfigEnv.KeyOfLowerName | src/ai_providers/config_env.py:80 | a lower-case row name selects its own row |
| ConfigEnv.NamesLowerCase | src/ai_providers/config_env.py:70-78 | the row names hold no capital letter |
| ConfigEnv.ApiKey | src/ai_providers/config_env.py:68-83 | a key exactly when the provider has a key variable and it is set, and then that variable's value |
| ConfigEnv.ApiKeyCaseInsensitive | src/ai_providers/config_env.py:80 | the provider name is matched case-insensitively |
| ConfigEnv.GeminiIsGoogle | src/ai_providers/config_env.py:73-74 | `gemini` reads the same key as `google` |
| ConfigEnv.ModelName | src/ai_providers/config_env.py:85-96 | the provider's model variable or its default; `default` for a provider without a row |
| ConfigEnv.AzureModelIsDefault | src/ai_providers/config_env.py:77-96 | `azure_openai` has a key row but no model row, so its model is `default` |
| ConfigEnv.DigitsOfNat | src/ai_providers/config_env.py:107-108 | the decimal rendering of a natural number is digits that read back as the number |
| ConfigEnv.IntLiteralRoundTrip | src/ai_providers/config_env.py:107-108 | `int(str(n)) == n` on the trimmed text |
| ConfigEnv.AsciiNotSpace | src/ai_providers/config_env.py:107-108 | a printable ASCII character is not whitespace |
| ConfigEnv.IntTextStripped | src/ai_providers/config_env.py:107-108 | a rendered integer has no surrounding whitespace |
| ConfigEnv.PyIntRoundTrip | src/ai_providers/config_env.py:107-108 | `int(str(n)) == n` |
| ConfigEnv.UngroupedDigits | src/ai_providers/config_env.py:107-108 | a digit run without underscores reads as itself |
| ConfigEnv.DigitsAreGroup | src/ai_providers/config_env.py:107-108 | plain non-empty digits are a valid digit group |
| ConfigEnv.SignedDigits | src/ai_providers/config_env.py:107-108 | `int` of digits with an optional minus is their value, negated with the minus |
| ConfigEnv.GroupedInteger | src/ai_providers/config_env.py:107-108 | `int("1_5") == 15`: underscores between digits are accepted |
| ConfigEnv.MalformedIntegers | src/ai_providers/config_env.py:107-108 | `int` raises on a leading, trailing or doubled underscore, a lone sign, empty text and a decimal point |
| ConfigEnv.FloatAccepts | src/ai_providers/config_env.py:109 | `float` accepts "0.7", ".5" and "2." |
| ConfigEnv.FloatAcceptsExponentAndNames | src/ai_providers/config_env.py:109 | `float` accepts an exponent ("1e-3") and the names `inf` and `nan` in any case, signed |
| ConfigEnv.FloatRejectsWord | src/ai_providers/config_env.py:109 | `float("abc")` raises |
| ConfigEnv.FloatRejectsPoint | src/ai_providers/config_env.py:109 | `float(".")` raises |
| ConfigEnv.FloatRejectsEmptyExponent | src/ai_providers/config_env.py:109 | `float("1e")` raises |
| ConfigEnv.FloatRejectsMalformed | src/ai_providers/config_env.py:109 | `float("1.2.3")` raises |
| ConfigEnv.DefaultTemperatureParses | src/ai_providers/config_env.py:109 | the default temperature "0.7" is a float |
| ConfigEnv.ProviderConfig | src/ai_providers/config_env.py:98-129 | empty without a truthy key; otherwise the key first and the model second, and a non-empty result is exactly the five base entries built from the key, the model, the two parsed limits and the temperature text, followed by the provider's extra entries |
| ConfigEnv.ProviderConfigParsed | src/ai_providers/config_env.py:104-110 | a non-empty configuration had integer limits and a temperature `float` accepts |
| ConfigEnv.Limits | src/ai_providers/config_env.py:107-108 | fails exactly when the timeout or the token limit is not an integer; otherwise the two values `int` reads |
| ConfigEnv.BaseEntries | src/ai_providers/config_env.py:104-110 | five entries in the order of the literal: `api_key` and `model` as text, `timeout` and `max_tokens` as integers, `temperature` as text |
| ConfigEnv.ProviderConfigFails | src/ai_providers/config_env.py:98-110 | the configuration fails exactly when a truthy key is present and a limit is not an integer or the temperature not a float |
| ConfigEnv.OllamaConfigEmpty | src/ai_providers/config_env.py:70-122 | `ollama` has no key row, so its configuration is empty and its `base_url` branch is never reached |
| ConfigEnv.ProviderPriority | src/ai_providers/config_env.py:131-134 | one entry per comma-separated part, each stripped |
| ConfigEnv.PriorityEntriesClean | src/ai_providers/config_env.py:131-134 | every entry is stripped and free of commas |
| ConfigEnv.DefaultProvider | src/ai_providers/config_env.py:136-138 | `openai` while the variable is unset |
| ConfigEnv.AvailableOnlyKnown | src/ai_providers/config_env.py:140-148 | only `simple` and names with a key row can be available |
| ConfigEnv.UpperPlaceholderAccepted | src/ai_providers/config_env.py:148 | the placeholder comparison is case-sensitive: an upper-case placeholder counts as a key |
| ConfigEnv.DebugInfo | src/ai_providers/config_env.py:150-158 | the available providers are the available names of the priority list, in its order (exactly those names); each switch is whether its variable, lower-cased, is `true` (off while unset); the environment is the variable's value, `development` while unset; the three sources in order |
| ConfigEnv.UnsetFlagOff | src/ai_providers/config_env.py:153-154 | a switch that defaults to `false` is off while unset |
| ApiConfig.LoadEnvManually | src/api_config.py:48-62 | the loop applies the file's assignments first to last, as `LoadEntries` gives them |
| ApiConfig.LoadKeepsSet | src/api_config.py:59-60 | a variable that already has a non-empty value is never overwritten |
| ApiConfig.LoadOnlyAssignedKeys | src/api_config.py:55-60 | a variable appears only when some line assigns it |
| ApiConfig.LoadedEntryHolds | src/api_config.py:59-60 | after a load each assigned key holds a non-empty value or that assignment's own value |
| ApiConfig.LoadEntryAgain | src/api_config.py:59-60 | after a load, applying one of the file's assignments again changes nothing |
| ApiConfig.LoadIdempotent | src/api_config.py:36-89 | reloading any prefix of the file after a load changes nothing |
| ApiConfig.LoadTwice | src/api_config.py:36-89 | loading the whole file twice is loading it once, so the reload in every getter is harmless |
| ApiConfig.LoadEnvFile | src/api_config.py:36-46 | nothing changes without `.env`; python-dotenv's result when installed; the hand-written loader otherwise |
| ApiConfig.OpenAIKey | src/api_config.py:64-84 | never the OpenAI placeholder; a set, non-placeholder environment value wins; a non-empty result comes from the environment or the secrets |
| ApiConfig.OpenAIKeyPriority | src/api_config.py:64-84 | a usable environment value is the key; otherwise a usable secret is; otherwise the key is "" (usable: set and not the OpenAI placeholder) |
| ApiConfig.ApiKeyPriority | src/api_config.py:86-123 | "" for an unknown name; the OpenAI getter for `openai` in any case; for the other known providers the environment, then the secrets, then "", with the generic placeholder excluded |
| ApiConfig.ApiKey | src/api_config.py:86-123 | "" for an unknown provider; `openai` delegates to `get_openai_api_key`; the others never return the generic placeholder, and a non-empty key comes from the provider's variable in the environment or the secrets |
| ApiConfig.OpenAIAcceptsGenericPlaceholder | src/api_config.py:71-106 | the generic placeholder in `OPENAI_API_KEY` is returned as a key, since the OpenAI getter checks only its own placeholder |
| ApiConfig.GetAzureConfig | src/api_config.py:131-138 | the `azure` key, never the placeholder and taken from the environment or the secrets; the endpoint, "" when unset |
| ApiConfig.AllApiKeys | src/api_config.py:140-150 | no entry is its getter's placeholder |
| ApiConfig.NotOpenAI | src/api_config.py:105 | a provider name not starting with `o` never takes the OpenAI branch |
| ApiConfig.AllKeysOpenAI | src/api_config.py:105-156 | the summary's OpenAI entry is `get_api_key('openai')`, non-empty exactly when OpenAI is available |
| ApiConfig.OpenAIIsLower | src/api_config.py:100-105 | `openai` is its own lower case |
| ApiConfig.OllamaBaseUrl | src/api_config.py:125-129 | the default URL while the variable is unset |
| ApiConfig.AvailableProviders | src/api_config.py:158-171 | the loop keeps the available known providers in order, then appends `ollama` |
| ApiConfig.AvailableProvidersShape | src/api_config.py:158-171 | the list ends with `ollama` and holds a known provider exactly when it has a key |
| ApiConfig.FilterThen | src/api_config.py:164-169 | a filtered list with one more name appended ends with it and keeps exactly the accepted names |
| ConfigManager.Defaults | src/ai_providers/config_manager.py:68-76 | the built-in names in order: gpt-oss, ollama, openai, huggingface, simple |
| ConfigManager.DefaultsWellFormed | src/ai_providers/config_manager.py:70-79 | the built-in entries are stored under their own names, once each |
| ConfigManager.EnabledRanked | src/ai_providers/config_manager.py:86-90 | no more pairs than entries |
| ConfigManager.EnabledRankedExact | src/ai_providers/config_manager.py:86-90 | a pair is listed exactly when an enabled entry has that name and priority |
| ConfigManager.Insert | src/ai_providers/config_manager.py:92 | inserting adds exactly one element |
| ConfigManager.SortByPriority | src/ai_providers/config_manager.py:92 | sorting keeps the length |
| ConfigManager.InsertPerm | src/ai_providers/config_manager.py:92 | inserting adds the element to the multiset and nothing else |
| ConfigManager.InsertSorted | src/ai_providers/config_manager.py:92 | inserting into a sorted list keeps it sorted |
| ConfigManager.InsertBand | src/ai_providers/config_manager.py:92 | inserting keeps the order of the pairs of each priority, placing the new pair last among its equals |
| ConfigManager.SortSpec | src/ai_providers/config_manager.py:92 | `list.sort(key=priority)` is sorted, a permutation, and stable: the pairs of each priority keep their table order |
| ConfigManager.Names | src/ai_providers/config_manager.py:93 | the names of the pairs, in order |
| ConfigManager.SortedPairOrigin | src/ai_providers/config_manager.py:86-93 | every sorted pair is an enabled entry of the table with that priority |
| ConfigManager.PreferencesExact | src/ai_providers/config_manager.py:84-93 | a name is a preference exactly when it is an enabled entry |
| ConfigManager.PreferencesOrdered | src/ai_providers/config_manager.py:84-93 | the preferences go by non-decreasing priority |
| ConfigManager.IndexIn | src/ai_providers/config_manager.py:86-90 | an enabled pair sits at an entry with its name and priority |
| ConfigManager.DefaultPreferences | src/ai_providers/config_manager.py:68-93 | with the built-in table the preferences are gpt-oss, ollama, simple |
| ConfigManager.DefaultRanked | src/ai_providers/config_manager.py:70-90 | the enabled pairs of the built-in table are gpt-oss 1, ollama 2, simple 9 |
| ConfigManager.EnabledStep | src/ai_providers/config_manager.py:86-90 | one more entry adds its pair exactly when it is enabled |
| ConfigManager.SortKeepsSorted | src/ai_providers/config_manager.py:92 | sorting an already sorted list leaves it unchanged |
| ConfigManager.FromRecord | src/ai_providers/config_manager.py:38-43 | the entry carries the record's name, with `enabled` defaulting to true, `priority` to 5 and `config` to {} |
| ConfigManager.FirstBad | src/ai_providers/config_manager.py:37-43 | the records before the position are objects and the one at it is not: the point where `config_data.get` raises |
| ConfigManager.ReloadWellFormed | src/ai_providers/config_manager.py:31-49 | loading keeps every entry under its own name |
| ConfigManager.ReloadStoredWellFormed | src/ai_providers/config_manager.py:33-47 | loading a stored file keeps every entry under its own name |
| ConfigManager.WithDefaultsWellFormed | src/ai_providers/config_manager.py:68-81 | assigning the built-in entries keeps every entry under its own name |
| ConfigManager.PutWellFormed | src/ai_providers/config_manager.py:38 | assigning an entry under its own name keeps the table well formed |
| ConfigManager.PutAllWellFormed | src/ai_providers/config_manager.py:37-43 | assigning the records in order keeps the table well formed |
| ConfigManager.UpdateWellFormed | src/ai_providers/config_manager.py:78-79 | assigning a well-formed table over a well-formed one keeps it well formed |
| ConfigManager.Snapshot | src/ai_providers/config_manager.py:51-63 | the written file is stored and has the table's names in the table's order |
| ConfigManager.SaveLoad | src/ai_providers/config_manager.py:26-63 | loading the written file into a new manager gives the same table back |
| ConfigManager.FirstBadNone | src/ai_providers/config_manager.py:37-43 | in a file of objects only, nothing raises |
| ConfigManager.SnapshotAt | src/ai_providers/config_manager.py:55-60 | each written record reads back as its entry |
| ConfigManager.PutAllSnapshot | src/ai_providers/config_manager.py:37-60 | reading back the first k written records gives the first k entries |
| ConfigManager.PutAllStep | src/ai_providers/config_manager.py:37-43 | one more record is assigned over what came before |
| ConfigManager.DefaultsFromEmpty | src/ai_providers/config_manager.py:157-160 | starting from nothing, the built-in entries are the whole table |
| ConfigManager.SummaryRows | src/ai_providers/config_manager.py:187-190 | one row per name |
| ConfigManager.SummaryRowsNumbered | src/ai_providers/config_manager.py:187-190 | row k is numbered k + 1 and describes the k-th name |
| ConfigManager.RenderShape | src/ai_providers/config_manager.py:190 | a line starts with its number, its mark and its name, and holds no newline when the name holds none |
| ConfigManager.SummaryLineAt | src/ai_providers/config_manager.py:187-190 | line k of enabled names starts with number k + 1, the green mark and the k-th name |
| ConfigManager.SummaryParts | src/ai_providers/config_manager.py:184-192 | the header and the lines hold no newline, and each line starts with its number and name |
| ConfigManager.HeadedLines | src/ai_providers/config_manager.py:184-190 | behind the header, line k + 1 of the whole is line k |
| ConfigManager.SummaryListsPreferences | src/ai_providers/config_manager.py:182-192 | the summary splits at newlines into the header and one line per preference, numbered from 1 in preference order, each marked enabled |
| ConfigManager.WellFormedSnoc | src/ai_providers/config_manager.py:121-144 | appending an entry under a fresh name of its own keeps the table well formed |
| ConfigManager.IndexOfKey | src/ai_providers/config_manager.py:97-115 | a present key has a position |
| ConfigManager.AIProviderConfigManager.constructor | src/ai_providers/config_manager.py:26-29 | the table is the file loaded into an empty table; the file is written back when the built-in table was used |
| ConfigManager.AIProviderConfigManager.LoadConfig | src/ai_providers/config_manager.py:31-49 | the table becomes `Reload` of the old table and the file; the file is rewritten unless every entry was an object |
| ConfigManager.AIProviderConfigManager.LoadRecords | src/ai_providers/config_manager.py:37-43 | the loop assigns the records up to the first non-object, reporting whether it reached the end |
| ConfigManager.AIProviderConfigManager.CreateDefaultConfig | src/ai_providers/config_manager.py:68-82 | the built-in entries are assigned over the table, then saved |
| ConfigManager.AIProviderConfigManager.SaveConfig | src/ai_providers/config_manager.py:51-66 | the file becomes the snapshot of the unchanged table |
| ConfigManager.AIProviderConfigManager.SetProviderEnabled | src/ai_providers/config_manager.py:95-102 | only the flag of a known entry changes and the file is saved; an unknown name changes nothing |
| ConfigManager.AIProviderConfigManager.SetProviderPriority | src/ai_providers/config_manager.py:104-111 | only the priority of a known entry changes and the file is saved; an unknown name changes nothing |
| ConfigManager.AIProviderConfigManager.SetProviderConfig | src/ai_providers/config_manager.py:113-123 | a known entry's settings are merged with the new ones; an unknown name is added, enabled, with priority 5; either way the file is saved and no other entry changes |
| ConfigManager.AIProviderConfigManager.GetProviderConfig | src/ai_providers/config_manager.py:125-129 | `None` exactly for an unknown name, otherwise that entry's settings |
| ConfigManager.AIProviderConfigManager.GetAllConfigs | src/ai_providers/config_manager.py:131-140 | one record per entry, in table order, carrying its flag, priority and settings |
| ConfigManager.AIProviderConfigManager.AddProvider | src/ai_providers/config_manager.py:142-146 | the entry is assigned (new names at the end), no other entry changes, and the file is saved |
| ConfigManager.AIProviderConfigManager.RemoveProvider | src/ai_providers/config_manager.py:148-155 | the name is gone and no other entry changes; the file is saved only when the name was known |
| ConfigManager.AIProviderConfigManager.ResetToDefaults | src/ai_providers/config_manager.py:157-161 | the table is the built-in table, whatever came before, and is saved |
| ConfigManager.AIProviderConfigManager.ExportConfig | src/ai_providers/config_manager.py:163-170 | the copy is the configuration file; nothing when it does not exist |
| ConfigManager.AIProviderConfigManager.ImportConfig | src/ai_providers/config_manager.py:172-180 | a missing source changes nothing; otherwise the file is replaced and loaded over the current table |
| ConfigManager.AIProviderConfigManager.GetConfigSummary | src/ai_providers/config_manager.py:182-192 | every preference is an entry, and the text is the header and the numbered lines of the preferences |
| ConfigManager.AIProviderConfigManager.RenderLines | src/ai_providers/config_manager.py:187-190 | the loop renders one numbered line per name |
| ConfigManager.AIProviderConfigManager.AddEntry | src/ai_providers/config_manager.py:144 | a new name goes at the end and no other entry changes |
| ConfigManager.AIProviderConfigManager.ReplaceEntry | src/ai_providers/config_manager.py:98-116 | a present name takes the new value in place and no other entry changes |
| CharacterAI.CharacterStage | src/character_ai.py:62-72 | no emotion gives monochrome, 1-2 partial, 3-4 rainbow, 5 or more full |
| CharacterAI.CharacterStageMonotone | src/character_ai.py:62-72 | more learned emotions never give an earlier stage |
| CharacterAI.Recorded | src/character_ai.py:56-57 | the emotion is listed afterwards and nothing learned is lost; the list grows by one exactly when the emotion was new and is unchanged otherwise; no duplicates are introduced |
| CharacterAI.SystemPromptShape | src/character_ai.py:21-42 | the prompt starts with the fixed description, the learned list (or なし) and the stage label; an empty or absent mode adds nothing; a mode adds the mode line at the end |
| CharacterAI.ReplyText | src/character_ai.py:60-86 | the reply's content when the service answered, the raised error otherwise |
| CharacterAI.RuriCharacter.constructor | src/character_ai.py:12-19 | no emotion learned, the stage monochrome |
| CharacterAI.RuriCharacter.LearnEmotion | src/character_ai.py:44-60 | the service is asked with the prompt from before the call; only on an answer is the emotion recorded and the stage recomputed; the list stays free of duplicates |
| CharacterAI.RuriCharacter.UpdateColorStage | src/character_ai.py:62-72 | the stage is the table applied to the number learned; the list is unchanged |
| CharacterAI.RuriCharacter.GenerateStreamResponse | src/character_ai.py:74-86 | one service call with the current prompt and the viewer's comment; the reply's content or the error |
| CharacterAI.RelearnChangesNothing | src/character_ai.py:56-58 | relearning a listed emotion keeps the stage; a new one moves it to the stage of one more; the stage never goes back |
| CharacterAI.ColorDescription | src/character_ai.py:95-102 | an unknown stage name gets the monochrome description |
| CharacterAI.ImagePromptShape | src/character_ai.py:88-102 | every image prompt starts with the base description and ends with the style line; an unknown stage gives the monochrome prompt |
| CharacterAINew.FallbackPrecedence | src/character_ai_new.py:167-186 | greetings are tried first, then colour, then feeling words, each answering with its fixed text and recording nothing; only a message with none of the keywords draws from the pool, and that exchange is recorded |
| CharacterAINew.AnyContainedConcat | src/character_ai_new.py:174-180 | a keyword list hits exactly when one of its halves does |
| CharacterAINew.AnalysisByValue | src/character_ai_new.py:264 | one entry per emotion, keyed by the emotion's value |
| CharacterAINew.AnalysisByValueLookup | src/character_ai_new.py:264 | each emotion's value looks up that emotion's keyword score |
| CharacterAINew.AnalysisByValueKeys | src/character_ai_new.py:264 | only emotion values are keys |
| CharacterAINew.RuriCharacter.constructor | src/character_ai_new.py:25-60 | the character's registry is new and empty, so neither a requested name nor the automatic choice finds a provider: it starts on the fallback with an empty history |
| CharacterAINew.RuriCharacter.InitializeAIProvider | src/character_ai_new.py:62-87 | a non-empty requested name is used when the registry can create it, otherwise the best available provider under its class name; a provider found is given the profile |
| CharacterAINew.RuriCharacter.FindProvider | src/character_ai_new.py:64-78 | a provider is found exactly when the requested name can be created, or, without a name, when a preferred provider is available |
| CharacterAINew.RuriCharacter.GiveProfile | src/character_ai_new.py:80-83 | the provider's context becomes the profile's JSON text; the registry stays consistent |
| CharacterAINew.RuriCharacter.GenerateResponse | src/character_ai_new.py:115-128 | when the provider answers (`ProviderAnswer`, what its own `generate_response` gives), that answer is returned and recorded, keeping the fifty most recent; without a provider, or when it raises, the fallback answers |
| CharacterAINew.RuriCharacter.GenerateResponseAsync | src/character_ai_new.py:130-143 | the same answers and history as `generate_response`, since every provider's coroutine runs it: the provider's answer, recorded, or the fallback when there is none |
| CharacterAINew.RuriCharacter.GenerateStreamResponse | src/character_ai_new.py:145-165 | the provider's stream (`ProviderStream`) is passed through and its concatenation recorded when non-empty; without a provider, or when the stream raises, the fallback text is yielded one character at a time |
| CharacterAINew.RuriCharacter.GenerateFallbackResponse | src/character_ai_new.py:167-186 | the text and history `FallbackText` and `FallbackHistory` describe |
| CharacterAINew.RuriCharacter.UpdateConversationHistory | src/character_ai_new.py:188-198 | one exchange is appended and only the fifty most recent are kept |
| CharacterAINew.RuriCharacter.GetCharacterStatus | src/character_ai_new.py:200-216 | the name, provider name, exchange count (at most fifty) and profile; the provider's own status exactly when there is a provider, naming its class and its availability |
| CharacterAINew.RuriCharacter.SwitchAIProvider | src/character_ai_new.py:218-242 | succeeds exactly when the package is present and the registry can build the named class afresh; then the new instance, named, carries the profile; otherwise nothing changes |
| CharacterAINew.RuriCharacter.Adopt | src/character_ai_new.py:226-233 | the provider and its name are replaced and the profile is handed over; the history is unchanged |
| CharacterAINew.RuriCharacter.GetAvailableProviders | src/character_ai_new.py:244-248 | the registry's available names, or `fallback` alone without the package |
| CharacterAINew.RuriCharacter.TestAllProviders | src/character_ai_new.py:250-254 | one verdict per registered name, or `{"fallback": True}` without the package |
| CharacterAINew.RuriCharacter.GenerateStreamResponseSync | src/character_ai_new.py:257-259 | the same answers and history as `generate_response` without a context: the provider's answer, recorded, or the fallback |
| CharacterAINew.RuriCharacter.AnalyzeEmotionFromText | src/character_ai_new.py:261-267 | `{"neutral": 0.5}` without a provider; otherwise each emotion's value maps to its keyword score |
| CharacterAINew.RuriCharacter.GetColorStageInfo | src/character_ai_new.py:269-278 | the fixed monochrome record without a provider; otherwise the provider's colour report of its own stage |
| RuriGptOss.LastTwenty | src/ruri_gptoss.py:233-234 | at most twenty entries, exactly the newest ones |
| RuriGptOss.PairedSnoc | src/ruri_gptoss.py:229-230 | appending a user entry and then an assistant entry keeps the roles alternating from a user entry |
| RuriGptOss.PairedSuffix | src/ruri_gptoss.py:233-234 | dropping an even number of the oldest entries keeps the roles alternating from a user entry |
| RuriGptOss.ExchangeKeepsPairs | src/ruri_gptoss.py:228-234 | after an exchange the history still alternates, holds at most twenty entries, and ends with that user entry and its answer |
| RuriGptOss.RuriGptOss.constructor | src/ruri_gptoss.py:42-79 | the model name and Harmony switch as given; available exactly when the libraries imported and, on the Harmony path, the encoding loaded; nothing learned, monochrome, no history, and a fresh fallback character |
| RuriGptOss.RuriGptOss.GenerateResponseGptoss | src/ruri_gptoss.py:173-244 | an answer from a connected model is returned and appended as a user and an assistant entry, trimmed to twenty; every other path returns the fallback character's stream response and leaves the history |
| RuriGptOss.RuriGptOss.LearnEmotion | src/ruri_gptoss.py:246-271 | with the model available the request goes through the model, otherwise to the fallback character, which records the emotion itself; an answer records the emotion once and updates the stage, a raised call changes nothing |
| RuriGptOss.RuriGptOss.UpdateColorStage | src/ruri_gptoss.py:273-283 | the stage is the original character's table applied to the number learned |
| RuriGptOss.RuriGptOss.GenerateStreamResponse | src/ruri_gptoss.py:285-299 | the model's answer when it is available and connected, with the exchange recorded; otherwise the fallback character's answer and an unchanged history |
| RuriGptOss.RuriGptOss.GetStatusInfo | src/ruri_gptoss.py:301-311 | the count is the history length, at most twenty and even; the stage value is the table applied to the number learned |
| Chat.ToTuple | src/chat_manager.py:26-28 | the tuple has exactly three parts |
| Chat.FromTuple | src/chat_manager.py:30-33 | a message read from a tuple has no response time and no model information |
| Chat.TupleRoundTrip | src/chat_manager.py:26-33 | reading back a message's tuple gives the message without its timing and model, and gives the message itself exactly when it had neither |
| Chat.Converted | src/chat_manager.py:59-64 | one stored element reads as at most one message |
| Chat.Messages | src/chat_manager.py:54-66 | the history read back is never longer than the stored list |
| Chat.MessagesSnoc | src/chat_manager.py:59-64 | reading one more element appends that element's conversion |
| Chat.MessagesConcat | src/chat_manager.py:54-66 | reading a list in two pieces is reading it whole |
| Chat.MessagesOfTuples | src/chat_manager.py:59-62 | a list of tuples of three or more parts reads back one message per tuple, in order |
| Chat.DroppedItems | src/chat_manager.py:59-64 | an element that is neither a long-enough tuple nor a message adds nothing to the history |
| Chat.Trimmed | src/chat_manager.py:78-80 | the kept list is a suffix of the list, of length `max_history` when longer and the whole list otherwise |
| Chat.TrimmedMessagesSuffix | src/chat_manager.py:78-80 | the messages kept after trimming are the newest of those read from the whole list |
| Chat.AddThenRead | src/chat_manager.py:68-85 | after adding a message the history holds at most `max_history` messages and ends with the new one, less its timing and model |
| Chat.BlocksSnoc | src/chat_manager.py:116-119 | one more message appends its block |
| Chat.BlocksPrefix | src/chat_manager.py:116-119 | the export of the first messages begins the export of all |
| Chat.ExportShape | src/chat_manager.py:109-121 | the "no history" text is produced exactly for no messages; otherwise the header comes first and each message's block follows those before it |
| Chat.Session.constructor | src/chat_manager.py:44-52 | an empty session state |
| Chat.PersistentKeyDiffers | src/chat_manager.py:50 | the persistent key never equals the history key |
| Chat.ChatManager.PersistentKey | src/chat_manager.py:50 | the persistent key differs from the history key |
| Chat.ChatManager.constructor | src/chat_manager.py:39-52 | both keys exist afterwards; existing entries and every other key are left as they were, missing ones start empty |
| Chat.ChatManager.GetHistory | src/chat_manager.py:54-66 | the messages are the stored list read element by element |
| Chat.ChatManager.AddMessage | src/chat_manager.py:68-85 | the new message carries the given fields; the history becomes the old one plus its tuple, trimmed; the persistent key holds the same list; no other key changes |
| Chat.ChatManager.ClearHistory | src/chat_manager.py:87-90 | both keys hold an empty list and nothing else changes |
| Chat.ChatManager.SaveToPersistent | src/chat_manager.py:92-98 | the persistent key receives the history; with no history nothing changes |
| Chat.ChatManager.LoadFromPersistent | src/chat_manager.py:100-107 | the history is restored from the persistent copy when there is one; otherwise nothing changes |
| Chat.ChatManager.ExportHistory | src/chat_manager.py:109-121 | the text is the export of the history read back |
| Chat.Render | src/chat_manager.py:115-121 | the header followed by every message's block, in order |
| Chat.ReplyKinds | src/chat_manager.py:180-186 | the model information is "error" exactly for the original character, whose reply starts with the error prefix; the stand-in replies from its pool with "unknown" |
| Chat.AIResponseGenerator.constructor | src/chat_manager.py:127-128 | no character is loaded |
| Chat.AIResponseGenerator.GetRuriCharacter | src/chat_manager.py:130-165 | a character is loaded once and kept; the first load gives the original when its import succeeds and the stand-in otherwise |
| Chat.AIResponseGenerator.GenerateResponse | src/chat_manager.py:167-190 | a disabled conversation answers with the disabled text and "disabled" without loading a character; otherwise the loaded character's reply; the time is the elapsed time |
| Chat.HandleChatMessage | src/chat_manager.py:211-225 | the returned message carries the user text, the reply, its time and model; the history gains exactly its tuple, trimmed, and its persistent copy matches |
| UnifiedConfig.Rank | src/unified_config.py:6-11 | the four levels are ordered, PUBLIC lowest and ADMIN highest |
| UnifiedConfig.UserLevelPrecedence | src/unified_config.py:57-67 | the level is ADMIN exactly when the admin flag is set, DEVELOPER when the developer flag is and the admin flag is not, BETA likewise, PUBLIC when none is |
| UnifiedConfig.AvailableFeatures | src/unified_config.py:69-95 | one entry per feature, in the dictionary's key order, each saying whether the level enables it |
| UnifiedConfig.SameFeatureKeys | src/unified_config.py:72-94 | every level gets the same keys, and the three basic features are on for everyone |
| UnifiedConfig.FeaturesMonotone | src/unified_config.py:78-93 | a feature of a level is a feature of every higher level; beta features need BETA, developer features DEVELOPER, admin features ADMIN |
| UnifiedConfig.UiConfigByLevel | src/unified_config.py:97-134 | technical details and the dark theme exactly from DEVELOPER up; the sidebar and advanced options exactly above PUBLIC; a different header colour per level |
| UnifiedConfig.MenuOfLevel | src/unified_config.py:136-164 | each level's menu is the base menu extended by the beta, developer and admin items up to its level |
| UnifiedConfig.MenusNest | src/unified_config.py:136-164 | the menus have 3, 5, 8 and 10 items and a lower level's menu starts every higher level's menu |
| UnifiedConfig.MenuPagesDistinct | src/unified_config.py:136-164 | no page appears twice in any level's menu |
| UnifiedConfig.FullMenuPagesDistinct | src/unified_config.py:139-162 | the ten pages of the full menu are all different |
| UnifiedConfig.ProductionAndPasswords | src/unified_config.py:17-55 | production exactly when ENVIRONMENT is "production" (default "development"); debugging off unless DEBUG is set; readable secrets decide the passwords, falling back to the defaults, otherwise the environment does |
| ProductionConfig.DefaultSettings | src/production_config.py:8-34 | with nothing set AI features are on and debugging, OBS, streaming and the beta login are off; debug features and technical details follow DEBUG; beta mode is on |
| ProductionConfig.GetConfig | src/production_config.py:36-50 | the reported features mirror the class switches and the name and version are the application's |
| ProductionConfig.ConfigFromEnvironment | src/production_config.py:9-50 | the reported debug flag and debug feature agree, beta mode is on, and the unset defaults carry through to the report |
| ProductionConfig.ProductionNeedsDebugOff | src/production_config.py:52-55 | production exactly when DEBUG is off and ENVIRONMENT is "production"; production never reports the debug feature |
| ProductionConfig.AvailableAiProvidersShape | src/production_config.py:57-68 | "simple" first; "openai" right after it exactly when a key is set; "ollama" and "gpt-oss" last exactly when AI features are on; no duplicates |
| SecureConfig.Stars | src/secure_config.py:106-107 | a run of exactly `n` asterisks |
| SecureConfig.MaskApiKey | src/secure_config.py:103-107 | the mask is as long as the key; a key of up to eight characters is all asterisks, a longer one keeps exactly its first and last four characters |
| SecureConfig.MaskIdempotent | src/secure_config.py:103-107 | masking a mask changes nothing, and a mask reveals only the first and last four characters |
| SecureConfig.DefaultSecretsEmpty | src/secure_config.py:109-119 | by default the owner password and every API key are empty |
| SecureConfig.DefaultFeaturesSection | src/secure_config.py:120-125 | the default `features` section answers every name as the four built-in flags do |
| SecureConfig.DefaultFeatureFlags | src/secure_config.py:120-125 | by default AI features are on and OBS and streaming are off |
| SecureConfig.DefaultFeatureAt | src/secure_config.py:120-125 | each of the four default flags is found under its own name |
| SecureConfig.DefaultSavedUnchanged | src/secure_config.py:53-76 | saving the default configuration succeeds and writes it unchanged, since nothing in it is truthy |
| SecureConfig.SealUnchanged | src/secure_config.py:57-66 | a section with no truthy value is saved as it is |
| SecureConfig.PutSame | src/secure_config.py:60 | assigning an entry the value it already has leaves the dictionary unchanged |
| SecureConfig.UnchangedWhenEmpty | src/secure_config.py:58-60 | a section whose values are all falsy comes through the loop unchanged |
| SecureConfig.SealValue | src/secure_config.py:59-60 | a falsy value is kept; a non-empty string is replaced by its hash or token |
| SecureConfig.SealSectionOk | src/secure_config.py:57-66 | sealing a section succeeds exactly when it is absent or a dictionary whose truthy values are strings; the top-level keys are kept and the section stays a dictionary |
| SecureConfig.SealSectionAt | src/secure_config.py:57-66 | after sealing, other sections read as before and each entry of the section reads as its sealed value |
| SecureConfig.SealSectionShape | src/secure_config.py:57-66 | sealing succeeds exactly for a sealable section and then changes that section's values and nothing else |
| SecureConfig.SaveTransformShape | src/secure_config.py:53-76 | saving succeeds exactly when both the passwords and the API keys can be sealed; it hashes the passwords, encrypts the keys and keeps every other section |
| SecureConfig.SaveTransformAt | src/secure_config.py:53-76 | after a save each password entry is its hash, each key entry its token, other sections unchanged, and the API keys a dictionary |
| SecureConfig.OpenValue | src/secure_config.py:88-96 | a falsy value is kept; a truthy one becomes a string, the decryption error text exactly when it is not a string or does not decrypt |
| SecureConfig.SealedKeyOpens | src/secure_config.py:62-66 | with a cipher whose tokens are non-empty and decrypt back, an encrypted key opens to its plain text |
| SecureConfig.RawApiKey | src/secure_config.py:144-155 | a missing or unreadable file gives ""; a non-empty result is the decryption of the stored key |
| SecureConfig.RawPassword | src/secure_config.py:133-142 | the stored entry as it is, "" when there is no file or no entry |
| SecureConfig.LoadViewEntry | src/secure_config.py:78-98 | every stored API key is shown through the decrypt-and-mask step, and missing keys stay missing |
| SecureConfig.SaveThenRawApiKey | src/secure_config.py:53-76 | save then `get_raw_api_key` gives back every key as it was given |
| SecureConfig.SaveThenShownKey | src/secure_config.py:53-98 | save then load shows every non-empty key as its mask |
| SecureConfig.SaveThenRawPassword | src/secure_config.py:53-76 | save then `get_raw_password` gives the hash of a non-empty password and "" for an empty one |
| SecureConfig.SecureConfigManager.constructor | src/secure_config.py:14-17 | the manager sees the given settings file |
| SecureConfig.SecureConfigManager.SealEntries | src/secure_config.py:58-60 | the loop's result is the section sealed entry by entry, or failure on a value that cannot be sealed |
| SecureConfig.SecureConfigManager.OpenEntries | src/secure_config.py:89-96 | every entry is opened and masked, keys and order kept |
| SecureConfig.SecureConfigManager.SealSectionIn | src/secure_config.py:57-66 | one section's block gives exactly the sealed configuration |
| SecureConfig.SecureConfigManager.SaveSecureConfig | src/secure_config.py:53-76 | returns true exactly when saving can succeed; then the file holds the sealed configuration, otherwise it is untouched |
| SecureConfig.SecureConfigManager.LoadSecureConfig | src/secure_config.py:78-101 | the default configuration for a missing or unreadable file; otherwise the stored one with its API keys decrypted and masked |

## Left out

- The Streamlit pages and widgets, including `show_admin_settings_ui` (src/secure_config.py:157-344), are rendering code and are not part of this model.
- I/O is not modelled: JSON files, the Fernet key file, `.env` files and `shutil` copies. Each file is an abstract state (missing, unreadable or holding a record), and a write is an assignment to that state.
- `_get_or_create_encryption_key`, `encrypt_data`, `decrypt_data`, `hash_password` and `verify_password` (src/secure_config.py:19-51) wrap Fernet and bcrypt. They are function parameters of the save and load transforms, and their cryptographic properties are assumptions of the lemmas that need them.
- The process-wide singletons (`get_config_manager`, `get_chat_manager`, `get_ai_generator`, the module-level `config` and `config_manager` objects) are left out. Callers pass explicitly constructed objects instead.
- The class attributes of `ProductionConfig` and `UnifiedConfig` are evaluated once, when the class is defined. They are modelled as functions of the environment map given at that moment.
- `UnifiedConfig.get_passwords`: an exception while reading the secrets is modelled as the secrets being absent (`None`).
- The python-dotenv library is not part of this model. Whether it is installed, and what it loads, are inputs.
- The OpenAI, Ollama and Harmony client calls are abstract. Each call is a total function of the messages sent; it returns an answer or an error text.
- The OpenAI client's `initialize` and `get_provider_info`, and Ollama's `pull_model`, are client calls and are not modelled.
- Asynchronous streaming is modelled as the sequence of chunks produced. `asyncio` scheduling and the `sleep` between simple-provider chunks are left out.
- `datetime.now` and `time.time` are parameters.
- `print` diagnostics are left out.
- The `gptoss_provider` and `huggingface_provider` modules are not part of this model. Their registration is an input that may succeed or fail. A class from such a module is described by its name, whether its constructor returns, whether it reports itself available, its answer (or that `generate_response` raises) and its stream's chunks (or that iterating it raises). What such a class does to its own history and emotion states is not modelled; the model keeps them as they are.
- `RuriGptOss`:
  - `get_system_prompt_content` and `_create_harmony_conversation` build Harmony library objects and are not modelled;
  - the Harmony path's `system=` argument and the extraction of the text from the response dictionary are abstracted into the service parameter;
  - `test_ruri_gptoss` is a script.
- `CharacterAINew.RuriCharacter.constructor`:
  - `_load_character_profile` always returns its built-in default, so the profile is kept as its JSON text;
  - the availability reported by `get_status_info` comes from `Backends.IsAvailable`.
- Emotion intensities are exact `real`s. The floating-point rounding of repeated additions of 0.1, 0.2 and 0.3 is not modelled, so a threshold comparison may differ from Python's after many steps.
- `str.lower` is modelled for ASCII letters only. `str.strip` uses the whitespace set of `str.isspace`. Unicode case folding is not modelled.
- The saved `learned_emotions` dictionary lists its levels in the order of the emotion enumeration. Python keeps the order in which the levels were learned; this affects only the JSON text, not what a restore reads back.
- ConfigEnv.ProviderConfig: the `temperature` entry keeps the text that `float` accepted, not the binary floating-point number, because no modelled member reads the temperature and floating point is not modelled.
- ConfigEnv.Limits: `int` and `float` also accept decimal digits outside ASCII, for example full-width digits. The model accepts only `0`-`9` and treats other digits as an error, because the Unicode digit table is not modelled.
- RuriGptOss.RuriGptOss.constructor: src/ruri_gptoss.py has no `from __future__ import annotations`. On Python before 3.14, the return annotations `-> SystemContent` (line 101) and `-> Conversation` (line 140) are evaluated when the class is defined, so the module itself raises `NameError` when the imports at lines 10-26 fail. The path where the libraries did not import exists only where annotations are evaluated lazily; the model describes that path without the module-level failure.
- ApiConfig.LoadEnvManually: the `try` at src/api_config.py:51-62 surrounds the whole loop, so a read error in the middle of the file keeps the assignments made before it. The model applies every line of a readable file; a file is either readable or not.
- ConfigManager.Load: the JSON fields are typed in the model (`enabled` a flag, `priority` an integer, `config` a table). A file with, for example, a string priority loads in Python and later makes the sort in `get_provider_preferences` raise `TypeError`; such files are not modelled.
- ConfigManager.AIProviderConfigManager.GetProviderConfig: Python returns the stored dictionary itself, so a caller's later changes to it alter the manager's table. The model returns a value, so that aliasing is not modelled. The same holds for `GetAllConfigs` and `ExportConfig`.
- SecureConfig.SecureConfigManager.LoadSecureConfig: the settings file is modelled as absent, unreadable, or holding a JSON object. Python also loads other top-level values. A list, or a string that does not contain `api_keys`, is returned as it is; a number, or a string that contains `api_keys`, raises, and the defaults are returned. These files are not modelled.
- `SecureConfig.SecureConfigManager.SaveSecureConfig`: when `save_secure_config` fails part-way, the caller's dictionary may already be partly rewritten in place. The model returns `false` and leaves the file untouched, but does not model that partial mutation of the argument.
