/** The provider classes as a closed family: how each one is constructed, and
    how `is_available`, `generate_response` and the stream dispatch on the
    concrete class of a provider. */
module Backends {
  import opened Common
  import opened Emotion
  import opened BaseProvider
  import opened External
  import SimpleProvider
  import OpenAIProvider
  import OllamaProvider
  import Dict

  /** A provider class as the registry holds it. `OtherClass` stands for a class
      whose module is not part of this model, described by whether its
      constructor returns, whether it reports itself available, what it
      answers (`None` when `generate_response` raises) and the chunks its
      stream yields (`None` when iterating it raises). */
  datatype Factory =
    | SimpleClass
    | OpenAIClass
    | OllamaClass
    | OtherClass(name: string, constructs: bool, available: bool, reply: Option<string>, stream: Option<seq<string>>)

  /** `provider_class.__name__`. */
  function ClassNameOf(f: Factory): string
  {
    match f
    case SimpleClass => "SimpleAIProvider"
    case OpenAIClass => "OpenAIProvider"
    case OllamaClass => "OllamaAIProvider"
    case OtherClass(name, _, _, _, _) => name
  }

  /** The constructor returns instead of raising. */
  predicate Constructs(f: Factory)
  {
    !f.OtherClass? || f.constructs
  }

  /** The class-specific fields of a new instance. */
  function ExtOf(f: Factory, config: Dict.Table<Value>, world: World): (ext: Ext)
    requires Constructs(f)
    ensures ClassName(ext) == ClassNameOf(f)
  {
    match f
    case SimpleClass => SimpleExt(SimpleProvider.DefaultResponses())
    case OpenAIClass => OpenAIExt(false, OpenAIProvider.DefaultModel)
    case OllamaClass => OllamaProvider.ExtFor(config, world.ollamaInstalled)
    case OtherClass(name, _, available, reply, stream) => OtherExt(name, available, reply, stream)
  }

  /** `is_available()` of an instance with these class fields. */
  predicate ExtAvailable(ext: Ext, world: World)
  {
    match ext
    case SimpleExt(_) => true
    case OpenAIExt(_, _) => OpenAIProvider.IsAvailable(world)
    case OllamaExt(_, _, _, _, _) => OllamaProvider.IsAvailable(ext, world)
    case OtherExt(_, available, _, _) => available
  }

  /** `provider_class(config).is_available()` returns true. */
  predicate AvailableWith(f: Factory, config: Dict.Table<Value>, world: World)
  {
    Constructs(f) && ExtAvailable(ExtOf(f, config, world), world)
  }

  /** The simple responder is available whatever the configuration and the world. */
  lemma SimpleAlwaysAvailable(config: Dict.Table<Value>, world: World)
    ensures AvailableWith(SimpleClass, config, world)
  {
  }

  /** `provider_class(config)`: `null` when the constructor raises. */
  method Construct(f: Factory, config: Dict.Table<Value>, world: World) returns (p: Provider?)
    ensures p == null <==> !Constructs(f)
    ensures p != null ==> fresh(p) && p.Valid() && p.ext == ExtOf(f, config, world) && p.config == config
    ensures p != null ==> p.history == [] && p.states == InitialStates() && p.stage == Monochrome
  {
    match f
    case SimpleClass =>
      p := SimpleProvider.New(config);
    case OpenAIClass =>
      p := OpenAIProvider.New(config);
    case OllamaClass =>
      p := OllamaProvider.New(config, world);
    case OtherClass(name, constructs, available, reply, stream) =>
      if constructs {
        p := new Provider(config, OtherExt(name, available, reply, stream));
      } else {
        p := null;
      }
  }

  /** The instance's `is_available()`. */
  predicate IsAvailable(p: Provider, world: World)
    reads p
  {
    ExtAvailable(p.ext, world)
  }

  /** Whether two class-field records belong to the same class. */
  predicate SameClass(a: Ext, b: Ext)
  {
    (a.SimpleExt? && b.SimpleExt?) || (a.OpenAIExt? && b.OpenAIExt?)
    || (a.OllamaExt? && b.OllamaExt?) || (a.OtherExt? && b.OtherExt? && a == b)
  }

  /** The text `generate_response` answers for an instance with these fields,
      each class by its own rule; `None` when it raises. */
  function AnswerOf(ext: Ext, stage: ColorStage, states: map<EmotionType, EmotionState>, history: seq<Turn>,
                    config: Dict.Table<Value>, message: string, ctx: Option<Context>, world: World, pick: nat): Option<string>
  {
    match ext
    case SimpleExt(responses) => SimpleProvider.ChooseAnswer(responses, message, pick)
    case OpenAIExt(hasClient, model) =>
      Some(OpenAIProvider.Response(hasClient, model, config, ctx, message, world, stage).text)
    case OllamaExt(_, _, _, _, _) =>
      Some(OllamaProvider.ReplyText(ext, stage, states, history, message, world, pick))
    case OtherExt(_, _, reply, _) => reply
  }

  /** The chunks `async for` over the instance's stream collects; `None` when it
      raises before the first chunk. */
  function StreamOf(ext: Ext, stage: ColorStage, states: map<EmotionType, EmotionState>, history: seq<Turn>,
                    message: string, world: World, pick: nat): Option<seq<string>>
  {
    match ext
    case SimpleExt(responses) =>
      (match SimpleProvider.ChooseAnswer(responses, message, pick)
       case None => None
       case Some(text) => Some(Chars(text)))
    case OpenAIExt(_, _) => None
    case OllamaExt(_, _, _, _, _) =>
      Some(OllamaProvider.StreamChunks(ext, stage, states, history, message, world, pick))
    case OtherExt(_, _, _, stream) => stream
  }

  /** The OpenAI and Ollama providers always answer, the simple one exactly when
      the message's category has a non-empty pool (always, with the default
      pools), and a class outside the model as described. The OpenAI provider
      never streams; the Ollama one always does, the simple one exactly when it
      answers, and a class outside the model as described. */
  lemma WhoAnswers(ext: Ext, stage: ColorStage, states: map<EmotionType, EmotionState>, history: seq<Turn>,
                   config: Dict.Table<Value>, message: string, ctx: Option<Context>, world: World, pick: nat)
    ensures var a := AnswerOf(ext, stage, states, history, config, message, ctx, world, pick);
      (ext.OpenAIExt? || ext.OllamaExt? ==> a.Some?)
      && (ext.OtherExt? ==> a == ext.reply)
      && (ext == SimpleExt(SimpleProvider.DefaultResponses()) ==> a.Some?)
    ensures var st := StreamOf(ext, stage, states, history, message, world, pick);
      (st.Some? <==> ext.OllamaExt? || (ext.OtherExt? && ext.stream.Some?)
                     || (ext.SimpleExt? && AnswerOf(ext, stage, states, history, config, message, ctx, world, pick).Some?))
      && (ext.SimpleExt? && st.Some? ==> st.value == Chars(AnswerOf(ext, stage, states, history, config, message, ctx, world, pick).value))
      && (ext.OtherExt? ==> st == ext.stream)
  {
    if ext == SimpleExt(SimpleProvider.DefaultResponses()) {
      SimpleProvider.DefaultAlwaysAnswers(message, pick);
    }
  }

  /** `provider.generate_response(message, context)`; `Err` when it raises. The
      OpenAI and Ollama providers never raise; the simple one raises only for a
      missing or empty pool. */
  method GenerateResponse(p: Provider, message: string, ctx: Option<Context>, world: World, pick: nat)
    returns (r: Result<CharacterResponse>)
    requires p.Valid()
    modifies p
    ensures p.Valid() && SameClass(old(p.ext), p.ext) && p.config == old(p.config)
    ensures old(p.ext).SimpleExt? ==> (r.Ok? <==> SimpleProvider.ChooseAnswer(old(p.ext.responses), message, pick).Some?)
    ensures old(p.ext).SimpleExt? && r.Ok? ==> r.value.text == SimpleProvider.ChooseAnswer(old(p.ext.responses), message, pick).value
    ensures old(p.ext).OpenAIExt? || old(p.ext).OllamaExt? ==> r.Ok?
    ensures old(p.ext).OtherExt? ==>
      (r.Ok? <==> old(p.ext).reply.Some?) && (r.Ok? ==> r.value.text == old(p.ext).reply.value)
      && p.history == old(p.history) && p.states == old(p.states)
    ensures old(p.ext).OllamaExt? && !OllamaProvider.IsAvailable(old(p.ext), world) ==>
      r == Ok(SimpleProvider.FallbackResponse(message, pick)) && p.history == old(p.history)
    ensures old(p.ext).SimpleExt? ==>
      p.ext == old(p.ext) && p.history == old(p.history)
      && (r.Ok? ==> p.states == Absorbed(old(p.states), message))
      && (r.Err? ==> p.states == old(p.states) && p.stage == old(p.stage))
    ensures old(p.ext).OpenAIExt? ==>
      p.history == old(p.history) && p.states == old(p.states) && p.stage == old(p.stage)
      && p.ext.model == old(p.ext.model)
    ensures old(p.ext).OllamaExt? ==>
      p.ext == old(p.ext)
      && var reply := world.ollamaChat(ValueText(old(p.ext).modelName),
                                       OllamaProvider.Messages(OllamaProvider.SystemPrompt(old(p.stage), old(p.states)), old(p.history), message));
         if !OllamaProvider.IsAvailable(old(p.ext), world) || reply.Failure? then
           p.history == old(p.history) && p.states == old(p.states) && p.stage == old(p.stage)
         else
           p.history == AppendBounded(old(p.history), Turn(message, reply.text), 50)
           && p.states == Absorbed(old(p.states), message)
    ensures var a := AnswerOf(old(p.ext), old(p.stage), old(p.states), old(p.history), old(p.config),
                              message, ctx, world, pick);
      (r.Ok? <==> a.Some?) && (r.Ok? ==> r.value.text == a.value)
  {
    match p.ext
    case SimpleExt(_) =>
      r := SimpleProvider.GenerateResponse(p, message, pick);
    case OpenAIExt(_, _) =>
      var resp := OpenAIProvider.GenerateResponse(p, message, ctx, world);
      r := Ok(resp);
    case OllamaExt(_, _, _, _, _) =>
      var resp := OllamaProvider.GenerateResponse(p, message, world, pick);
      r := Ok(resp);
    case OtherExt(_, _, reply, _) =>
      if reply.Some? {
        r := Ok(CharacterResponse(reply.value, Joy, 0.0, p.stage, OtherMeta));
      } else {
        r := Err("generate_response raised");
      }
  }

  /** `async for chunk in provider.generate_stream_response(message, context)`;
      `Err` when iterating raises before any chunk. The OpenAI provider's stream
      is a plain generator, so `async for` over it raises before its body runs;
      a class outside this model yields its chunks or raises, as described. */
  method GenerateStream(p: Provider, message: string, ctx: Option<Context>, world: World, pick: nat)
    returns (r: Result<seq<string>>)
    requires p.Valid()
    modifies p
    ensures p.Valid() && SameClass(old(p.ext), p.ext) && p.config == old(p.config)
    ensures old(p.ext).SimpleExt? ==> (r.Ok? <==> SimpleProvider.ChooseAnswer(old(p.ext.responses), message, pick).Some?)
    ensures old(p.ext).OllamaExt? ==> r.Ok?
    ensures old(p.ext).OpenAIExt? ==>
      r.Err? && p.history == old(p.history) && p.states == old(p.states) && p.ext == old(p.ext)
    ensures old(p.ext).OtherExt? ==>
      (r.Ok? <==> old(p.ext).stream.Some?) && (r.Ok? ==> r.value == old(p.ext).stream.value)
      && p.history == old(p.history) && p.states == old(p.states) && p.ext == old(p.ext)
    ensures old(p.ext).SimpleExt? ==>
      p.ext == old(p.ext) && p.history == old(p.history)
      && (r.Ok? ==> p.states == Absorbed(old(p.states), message))
      && (r.Err? ==> p.states == old(p.states) && p.stage == old(p.stage))
    ensures old(p.ext).OllamaExt? ==>
      p.ext == old(p.ext)
      && var s := world.ollamaStream(ValueText(old(p.ext).modelName),
                                     OllamaProvider.Messages(OllamaProvider.SystemPrompt(old(p.stage), old(p.states)), old(p.history), message));
         if !OllamaProvider.IsAvailable(old(p.ext), world) || s.raised || Concat(s.parts) == "" then
           p.history == old(p.history) && p.states == old(p.states)
         else
           p.history == AppendBounded(old(p.history), Turn(message, Concat(s.parts)), 50)
           && p.states == Absorbed(old(p.states), message)
    ensures var st := StreamOf(old(p.ext), old(p.stage), old(p.states), old(p.history), message, world, pick);
      (r.Ok? <==> st.Some?) && (r.Ok? ==> r.value == st.value)
  {
    match p.ext
    case SimpleExt(_) =>
      r := SimpleProvider.GenerateStream(p, message, pick);
    case OpenAIExt(_, _) =>
      r := Err("'async for' requires an object with __aiter__ method, got generator");
    case OllamaExt(_, _, _, _, _) =>
      var chunks := OllamaProvider.GenerateStream(p, message, world, pick);
      r := Ok(chunks);
    case OtherExt(_, _, _, stream) =>
      if stream.Some? {
        r := Ok(stream.value);
      } else {
        r := Err("generate_stream_response raised");
      }
  }
}
