/** `OpenAIProvider`: resolves a key, assembles the chat messages, and turns
    every failure into an in-band response. It never learns emotions and never
    records history. */
module OpenAIProvider {
  import opened Common
  import opened Emotion
  import opened BaseProvider
  import opened External
  import ApiConfig
  import Dict

  const DefaultModel := "gpt-4o-mini"
  const NoKeyText := "OpenAI APIキーが設定されていません"
  const ErrorPrefix := "OpenAI APIエラー: "
  /** `str(e)` of the `NameError` raised when the client class is used without the library. */
  const MissingLibraryError := "name 'openai' is not defined"

  /** `OpenAIProvider(config)`: no client yet. */
  method New(config: Dict.Table<Value>) returns (p: Provider)
    ensures fresh(p) && p.Valid()
    ensures p.ext == OpenAIExt(false, DefaultModel) && p.config == config
    ensures p.history == [] && p.states == InitialStates() && p.stage == Monochrome
  {
    p := new Provider(config, OpenAIExt(false, DefaultModel));
  }

  /** `is_available`: the library is installed and `APIConfig` has an OpenAI key. */
  predicate IsAvailable(world: World)
  {
    world.openaiInstalled && ApiConfig.IsProviderAvailable(world.keys, "openai")
  }

  /** Availability is the library plus a non-placeholder key from the environment or the secrets. */
  lemma AvailableMeansKey(world: World)
    ensures IsAvailable(world) <==> world.openaiInstalled && ApiConfig.OpenAIKey(world.keys) != ""
    ensures !world.openaiInstalled ==> !IsAvailable(world)
  {
    assert Lower("openai") == "openai";
  }

  // ---------------------------------------------------------------------------
  // Key resolution
  // ---------------------------------------------------------------------------

  /** The key `generate_response` resolves: the environment variable when it is
      non-empty, else the secret when it is non-empty, else `config['api_key']`
      (`Null` when absent). */
  function ResolveKey(src: ApiConfig.Sources, config: Dict.Table<Value>): (key: Value)
    ensures ApiConfig.EnvSet(src.env, ApiConfig.OpenAIKeyEnv) ==> key == Str(src.env[ApiConfig.OpenAIKeyEnv])
    ensures key.Str? && key.s != "" && !Dict.Has(config, "api_key") ==>
      (ApiConfig.OpenAIKeyEnv in src.env && key.s == src.env[ApiConfig.OpenAIKeyEnv])
      || (src.secrets.Some? && ApiConfig.OpenAIKeyEnv in src.secrets.value && key.s == src.secrets.value[ApiConfig.OpenAIKeyEnv])
  {
    var k := ApiConfig.OpenAIKeyEnv;
    if ApiConfig.EnvSet(src.env, k) then Str(src.env[k])
    else if src.secrets.Some? && k in src.secrets.value && src.secrets.value[k] != "" then Str(src.secrets.value[k])
    else Dict.GetOr(config, "api_key", Null)
  }

  /** A key the client is built with: truthy and not the placeholder. */
  predicate UsableKey(key: Value)
  {
    Truthy(key) && key != Str(ApiConfig.PlaceholderOpenAIKey)
  }

  /** A placeholder in the environment hides a real secret: availability (which
      skips placeholders) holds, yet the key resolved here is rejected. */
  lemma EnvPlaceholderShadowsSecret(secret: string)
    requires secret != "" && secret != ApiConfig.PlaceholderOpenAIKey
    ensures var src := ApiConfig.Sources(map[ApiConfig.OpenAIKeyEnv := ApiConfig.PlaceholderOpenAIKey],
                                         Some(map[ApiConfig.OpenAIKeyEnv := secret]));
      ApiConfig.OpenAIKey(src) == secret && !UsableKey(ResolveKey(src, []))
  {
  }

  // ---------------------------------------------------------------------------
  // Messages
  // ---------------------------------------------------------------------------

  predicate IsChatRole(e: ContextEntry)
  {
    e.role == Some("user") || e.role == Some("assistant")
  }

  /** The history entries whose role is `user` or `assistant`, as messages. */
  function RoleMessages(entries: seq<ContextEntry>): (r: seq<ChatMsg>)
    ensures |r| <= |entries|
    ensures forall i :: 0 <= i < |r| ==> r[i].role == "user" || r[i].role == "assistant"
  {
    if entries == [] then []
    else
      var e := entries[|entries| - 1];
      RoleMessages(entries[..|entries| - 1]) + (if IsChatRole(e) then [ChatMsg(e.role.value, e.content)] else [])
  }

  /** The optional system message carrying the character context. */
  function SystemPart(ctx: Option<Context>): seq<ChatMsg>
  {
    if ctx.Some? && ctx.value.characterContext != "" then [ChatMsg("system", ctx.value.characterContext)] else []
  }

  /** The messages sent for `message`: the system part, the chat-role entries of the
      ten latest history entries, then the user message. */
  function Messages(ctx: Option<Context>, message: string): seq<ChatMsg>
  {
    SystemPart(ctx) + (if ctx.Some? then RoleMessages(PyTail(ctx.value.conversationHistory, 10)) else [])
      + [ChatMsg("user", message)]
  }

  /** The message list assembled in `generate_response`, one history entry at a time. */
  method BuildMessages(ctx: Option<Context>, message: string) returns (msgs: seq<ChatMsg>)
    ensures msgs == Messages(ctx, message)
  {
    ghost var mid := if ctx.Some? then RoleMessages(PyTail(ctx.value.conversationHistory, 10)) else [];
    msgs := [];
    if ctx.Some? && ctx.value.characterContext != "" {
      msgs := msgs + [ChatMsg("system", ctx.value.characterContext)];
    }
    assert msgs == SystemPart(ctx);
    if ctx.Some? && ctx.value.conversationHistory != [] {
      msgs := AppendRoleMessages(msgs, PyTail(ctx.value.conversationHistory, 10));
    } else if ctx.Some? {
      assert PyTail(ctx.value.conversationHistory, 10) == [];
      assert msgs == msgs + mid;
    } else {
      assert msgs == msgs + mid;
    }
    assert msgs == SystemPart(ctx) + mid;
    msgs := msgs + [ChatMsg("user", message)];
  }

  /** The loop over the recent history entries, keeping the chat-role ones. */
  method AppendRoleMessages(start: seq<ChatMsg>, recent: seq<ContextEntry>) returns (msgs: seq<ChatMsg>)
    ensures msgs == start + RoleMessages(recent)
  {
    msgs := start;
    var i := 0;
    while i < |recent|
      invariant 0 <= i <= |recent|
      invariant msgs == start + RoleMessages(recent[..i])
    {
      assert recent[..i + 1][..i] == recent[..i];
      var entry := recent[i];
      if entry.role == Some("user") || entry.role == Some("assistant") {
        msgs := msgs + [ChatMsg(entry.role.value, entry.content)];
      }
      i := i + 1;
    }
    assert recent[..i] == recent;
  }

  /** The shape of the message list: the user message last, a system message first
      exactly when a character context is given, and at most ten history messages
      in between, each from the user or the assistant. */
  lemma MessagesShape(ctx: Option<Context>, message: string)
    ensures var m := Messages(ctx, message);
      m[|m| - 1] == ChatMsg("user", message)
      && (m[0].role == "system" <==> ctx.Some? && ctx.value.characterContext != "")
      && |m| <= 12
      && (forall i :: |SystemPart(ctx)| <= i < |m| - 1 ==> m[i].role == "user" || m[i].role == "assistant")
  {
    var m := Messages(ctx, message);
    var mid := if ctx.Some? then RoleMessages(PyTail(ctx.value.conversationHistory, 10)) else [];
    assert m == SystemPart(ctx) + mid + [ChatMsg("user", message)];
    if ctx.Some? {
      PyTailPositive(ctx.value.conversationHistory, 10);
    }
    forall i | |SystemPart(ctx)| <= i < |m| - 1 ensures m[i].role == "user" || m[i].role == "assistant" {
      assert m[i] == mid[i - |SystemPart(ctx)|];
    }
  }

  // ---------------------------------------------------------------------------
  // Answering
  // ---------------------------------------------------------------------------

  /** The response for a missing or placeholder key. */
  function NoKeyResponse(stage: ColorStage): (r: CharacterResponse)
    ensures r.text == NoKeyText && r.emotion == Joy && r.intensity == 0.0 && r.metadata == ErrorMeta("no_api_key")
  {
    CharacterResponse(NoKeyText, Joy, 0.0, stage, ErrorMeta("no_api_key"))
  }

  /** The response for an exception with text `e`. */
  function ErrorResponse(e: string, stage: ColorStage): (r: CharacterResponse)
    ensures IsPrefix(ErrorPrefix, r.text) && r.text[|ErrorPrefix|..] == e
    ensures r.emotion == Joy && r.intensity == 0.0 && r.metadata == ErrorMeta(e)
  {
    CharacterResponse(ErrorPrefix + e, Joy, 0.0, stage, ErrorMeta(e))
  }

  /** What `generate_response` answers for a provider whose client exists
      (`hasClient`) or not, with the given configuration: the "no key" response,
      the error for the missing library, or the chat service's reply or error. */
  function Response(hasClient: bool, model: string, config: Dict.Table<Value>, ctx: Option<Context>,
                    message: string, world: World, stage: ColorStage): CharacterResponse
  {
    if !hasClient && !UsableKey(ResolveKey(world.keys, config)) then NoKeyResponse(stage)
    else if !hasClient && !world.openaiInstalled then ErrorResponse(MissingLibraryError, stage)
    else match world.openaiChat(Messages(ctx, message))
      case Failure(e) => ErrorResponse(e, stage)
      case Answer(text, tokens) => CharacterResponse(Strip(text), Joy, 0.7, stage, OpenAIMeta(model, tokens))
  }

  /** Every response is joy at the current stage; it is either the "no key"
      response, an error response (intensity 0, the error in the metadata), or
      the service's stripped answer at intensity 0.7, and the last exactly when
      the service answered once a client could exist. */
  lemma ResponseKinds(hasClient: bool, model: string, config: Dict.Table<Value>, ctx: Option<Context>,
                      message: string, world: World, stage: ColorStage)
    ensures var r := Response(hasClient, model, config, ctx, message, world, stage);
      r.emotion == Joy && r.stage == stage
      && (r.intensity == 0.7 <==>
            (hasClient || (UsableKey(ResolveKey(world.keys, config)) && world.openaiInstalled))
            && world.openaiChat(Messages(ctx, message)).Answer?)
      && (r.intensity == 0.7 ==> r.text == Strip(world.openaiChat(Messages(ctx, message)).text))
      && (r.intensity != 0.7 ==> r == NoKeyResponse(stage) || IsPrefix(ErrorPrefix, r.text))
  {
  }

  /** `generate_response`. Without a client the key is resolved first; a usable
      key creates the client (which raises without the library). The reply, or
      the exception, becomes the response; the emotion is always the first
      state's (joy), and nothing but the client changes. */
  method GenerateResponse(p: Provider, message: string, ctx: Option<Context>, world: World) returns (r: CharacterResponse)
    requires p.Valid() && p.ext.OpenAIExt?
    modifies p
    ensures p.Valid() && p.ext.OpenAIExt? && p.ext.model == old(p.ext.model)
    ensures p.config == old(p.config) && p.characterContext == old(p.characterContext)
    ensures p.history == old(p.history) && p.states == old(p.states) && p.stage == old(p.stage)
    ensures r.emotion == Joy && r.stage == p.stage
    ensures !old(p.ext.hasClient) && !UsableKey(ResolveKey(world.keys, p.config)) ==>
      r == NoKeyResponse(p.stage) && !p.ext.hasClient
    ensures !old(p.ext.hasClient) && UsableKey(ResolveKey(world.keys, p.config)) && !world.openaiInstalled ==>
      r == ErrorResponse(MissingLibraryError, p.stage) && !p.ext.hasClient
    ensures old(p.ext.hasClient) || (UsableKey(ResolveKey(world.keys, p.config)) && world.openaiInstalled) ==>
      p.ext.hasClient &&
      match world.openaiChat(Messages(ctx, message))
      case Failure(e) => r == ErrorResponse(e, p.stage)
      case Answer(text, tokens) => r == CharacterResponse(Strip(text), Joy, 0.7, p.stage, OpenAIMeta(p.ext.model, tokens))
    ensures r == Response(old(p.ext.hasClient), p.ext.model, p.config, ctx, message, world, p.stage)
  {
    if !p.ext.hasClient {
      var key := ResolveKey(world.keys, p.config);
      if !UsableKey(key) {
        return NoKeyResponse(p.stage);
      }
      if !world.openaiInstalled {
        return ErrorResponse(MissingLibraryError, p.stage);
      }
      p.ext := OpenAIExt(true, p.ext.model);
    }
    var msgs := BuildMessages(ctx, message);
    match world.openaiChat(msgs)
    case Failure(e) =>
      r := ErrorResponse(e, p.stage);
    case Answer(text, tokens) =>
      r := CharacterResponse(Strip(text), Joy, 0.7, p.stage, OpenAIMeta(p.ext.model, tokens));
  }

  /** `generate_stream_response`: a single item, the whole response. */
  method GenerateStream(p: Provider, message: string, ctx: Option<Context>, world: World) returns (items: seq<CharacterResponse>)
    requires p.Valid() && p.ext.OpenAIExt?
    modifies p
    ensures p.Valid() && p.ext.OpenAIExt?
    ensures p.history == old(p.history) && p.states == old(p.states)
    ensures p.ext.model == old(p.ext.model) && p.config == old(p.config) && p.stage == old(p.stage)
    ensures items == [Response(old(p.ext.hasClient), p.ext.model, p.config, ctx, message, world, p.stage)]
    ensures |items| == 1 && items[0].emotion == Joy
  {
    var r := GenerateResponse(p, message, ctx, world);
    items := [r];
  }
}
