/** `OllamaAIProvider`: a local chat server behind a client. It sends a system
    prompt built from its own state plus the last five turns, records each
    answered turn, and falls back to a fresh simple responder whenever the
    server is unreachable or the call fails. */
module OllamaProvider {
  import opened Common
  import opened Emotion
  import opened BaseProvider
  import opened External
  import SimpleProvider
  import Dict

  /** The configured model, host and port (`config.get` with the defaults
      `llama2`, `localhost`, `11434`) and the base URL built from them. */
  function ExtFor(config: Dict.Table<Value>, installed: bool): (ext: Ext)
    ensures ext.OllamaExt? && ext.hasClient == installed
    ensures ext.modelName == Dict.GetOr(config, "model", Str("llama2"))
    ensures ext.baseUrl == "http://" + ValueText(ext.host) + ":" + ValueText(ext.port)
    ensures !Dict.Has(config, "host") ==> ext.host == Str("localhost")
    ensures !Dict.Has(config, "port") ==> ext.port == Num(11434)
  {
    var host := Dict.GetOr(config, "host", Str("localhost"));
    var port := Dict.GetOr(config, "port", Num(11434));
    OllamaExt(Dict.GetOr(config, "model", Str("llama2")), host, port,
              "http://" + ValueText(host) + ":" + ValueText(port), installed)
  }

  /** Without configuration the client talks to the local default server. */
  lemma DefaultBaseUrl()
    ensures ExtFor([], true).baseUrl == "http://localhost:11434"
    ensures ExtFor([], true).modelName == Str("llama2")
  {
    var ext := ExtFor([], true);
    assert ValueText(ext.host) == "localhost";
    PortText();
    assert ext.baseUrl == "http://" + "localhost" + ":" + "11434";
    DefaultUrlText();
  }

  lemma DefaultUrlText()
    ensures "http://" + "localhost" + ":" + "11434" == "http://localhost:11434"
  {
    assert "http://" + "localhost" == "http://localhost";
    assert "http://localhost" + ":" == "http://localhost:";
  }

  lemma PortText()
    ensures ValueText(Num(11434)) == "11434"
  {
    assert NatToString(1143) == "1143";
  }

  /** `OllamaAIProvider(config)`: the client exists exactly when the library imports. */
  method New(config: Dict.Table<Value>, world: World) returns (p: Provider)
    ensures fresh(p) && p.Valid()
    ensures p.ext == ExtFor(config, world.ollamaInstalled) && p.config == config
    ensures p.history == [] && p.states == InitialStates() && p.stage == Monochrome
  {
    p := new Provider(config, ExtFor(config, world.ollamaInstalled));
  }

  /** `is_available`: a client exists and listing the server's models succeeds. */
  predicate IsAvailable(ext: Ext, world: World)
    requires ext.OllamaExt?
  {
    ext.hasClient && world.ollamaList(ext.baseUrl).Some?
  }

  // ---------------------------------------------------------------------------
  // Prompt and messages
  // ---------------------------------------------------------------------------

  const PromptHead := "あなたは「ルリ」という名前のAIキャラクターです。\n\n【キャラクター設定】\n- 戯曲『あいのいろ』の主人公\n- 最初はモノクロの世界に住んでいて、感情を学習することで色を理解していく\n- 純粋で好奇心旺盛、でも時々哲学的\n- 感情や色について常に学んでいる\n\n【現在の状態】\n- 色彩段階: "
  const PromptMiddle := "\n- 学習済み感情: "
  const PromptTail := "\n\n【応答指針】\n- 丁寧で親しみやすい口調\n- 感情や色に関する話題に興味を示す\n- 学習している感情については、その理解度を表現する\n- 簡潔だが心のこもった応答を心がける"

  /** `_create_system_prompt`: the stage's value and the learned emotions (or "なし"). */
  function SystemPrompt(stage: ColorStage, states: map<EmotionType, EmotionState>): string
  {
    PromptHead + StageValue(stage) + PromptMiddle + ListOrNone(LearnedValues(AllEmotions, states)) + PromptTail
  }

  /** The prompt says "なし" exactly when no emotion is learned. */
  lemma SystemPromptShowsNone(states: map<EmotionType, EmotionState>)
    ensures ListOrNone(LearnedValues(AllEmotions, states)) == "なし" <==> forall e :: !(e in states && states[e].learned)
  {
    var learned := LearnedValues(AllEmotions, states);
    LearnedValuesShape(AllEmotions, states);
    ListOrNoneEmpty(learned);
    if forall e :: !(e in states && states[e].learned) {
      CountLearnedNone(AllEmotions, states);
    } else {
      var e :| e in states && states[e].learned;
      AllEmotionsComplete(e);
      assert EmotionValue(e) in learned;
    }
  }

  /** Every learned value is an emotion's value, none empty or beginning with "な". */
  lemma {:induction false} LearnedValuesShape(es: seq<EmotionType>, states: map<EmotionType, EmotionState>)
    ensures forall i :: 0 <= i < |LearnedValues(es, states)| ==>
      LearnedValues(es, states)[i] != "" && LearnedValues(es, states)[i][0] != 'な'
  {
    if es != [] {
      LearnedValuesShape(es[1..], states);
      var e := es[0];
      assert EmotionValue(e) != "" && EmotionValue(e)[0] != 'な' by {
        match e
        case Joy => case Anger => case Sadness => case Love =>
        case Surprise => case Fear => case Disgust => case Anticipation =>
      }
      var rest := LearnedValues(es[1..], states);
      var r := LearnedValues(es, states);
      if e in states && states[e].learned {
        assert r == [EmotionValue(e)] + rest;
        forall i | 0 <= i < |r| ensures r[i] != "" && r[i][0] != 'な' {
          if i > 0 {
            assert r[i] == rest[i - 1];
          }
        }
      } else {
        assert r == rest;
      }
    }
  }

  /** One user/assistant pair per turn. */
  function Pairs(turns: seq<Turn>): (r: seq<ChatMsg>)
    ensures |r| == 2 * |turns|
  {
    if turns == [] then []
    else
      var t := turns[|turns| - 1];
      Pairs(turns[..|turns| - 1]) + [ChatMsg("user", t.user), ChatMsg("assistant", t.assistant)]
  }

  /** The system prompt, the last five turns as pairs, then the user message. */
  function Messages(prompt: string, history: seq<Turn>, message: string): seq<ChatMsg>
  {
    [ChatMsg("system", prompt)] + Pairs(PyTail(history, 5)) + [ChatMsg("user", message)]
  }

  /** The message list built in `generate_response` and the stream. */
  method BuildMessages(prompt: string, history: seq<Turn>, message: string) returns (msgs: seq<ChatMsg>)
    ensures msgs == Messages(prompt, history, message)
  {
    msgs := [ChatMsg("system", prompt)];
    var recent := PyTail(history, 5);
    var i := 0;
    while i < |recent|
      invariant 0 <= i <= |recent|
      invariant msgs == [ChatMsg("system", prompt)] + Pairs(recent[..i])
    {
      assert recent[..i + 1][..i] == recent[..i];
      msgs := msgs + [ChatMsg("user", recent[i].user), ChatMsg("assistant", recent[i].assistant)];
      i := i + 1;
    }
    assert recent[..i] == recent;
    msgs := msgs + [ChatMsg("user", message)];
  }

  /** The system message first, the user message last, and `2 + 2 * min(5, n)` messages in all. */
  lemma MessagesShape(prompt: string, history: seq<Turn>, message: string)
    ensures var m := Messages(prompt, history, message);
      |m| == 2 + 2 * (if |history| < 5 then |history| else 5)
      && m[0] == ChatMsg("system", prompt) && m[|m| - 1] == ChatMsg("user", message)
  {
    PyTailPositive(history, 5);
  }

  // ---------------------------------------------------------------------------
  // Answering
  // ---------------------------------------------------------------------------

  /** The text `generate_response` answers for a provider in this state: the
      chat reply, or the fresh simple responder's answer when the provider is
      unavailable or the call raises. */
  function ReplyText(ext: Ext, stage: ColorStage, states: map<EmotionType, EmotionState>, history: seq<Turn>,
                     message: string, world: World, pick: nat): string
    requires ext.OllamaExt?
  {
    var reply := world.ollamaChat(ValueText(ext.modelName), Messages(SystemPrompt(stage, states), history, message));
    if !IsAvailable(ext, world) || reply.Failure? then SimpleProvider.FallbackResponse(message, pick).text
    else reply.text
  }

  /** The chunks `generate_stream_response` yields for a provider in this state. */
  function StreamChunks(ext: Ext, stage: ColorStage, states: map<EmotionType, EmotionState>, history: seq<Turn>,
                        message: string, world: World, pick: nat): seq<string>
    requires ext.OllamaExt?
  {
    var s := world.ollamaStream(ValueText(ext.modelName), Messages(SystemPrompt(stage, states), history, message));
    if !IsAvailable(ext, world) then Chars(SimpleProvider.FallbackResponse(message, pick).text)
    else if s.raised then s.parts + Chars(SimpleProvider.FallbackResponse(message, pick).text)
    else s.parts
  }

  /** `generate_response`. Unavailable, or the chat call raising: the fresh
      simple responder's answer and no change here. Otherwise the reply is
      returned, the message's emotion learned, and exactly one turn recorded. */
  method GenerateResponse(p: Provider, message: string, world: World, pick: nat) returns (r: CharacterResponse)
    requires p.Valid() && p.ext.OllamaExt?
    modifies p
    ensures p.Valid()
    ensures p.ext == old(p.ext) && p.config == old(p.config) && p.characterContext == old(p.characterContext)
    ensures var reply := world.ollamaChat(ValueText(p.ext.modelName),
                                          Messages(SystemPrompt(old(p.stage), old(p.states)), old(p.history), message));
      if !IsAvailable(p.ext, world) || reply.Failure? then
        r == SimpleProvider.FallbackResponse(message, pick)
        && p.history == old(p.history) && p.states == old(p.states) && p.stage == old(p.stage)
      else
        var scores := EmotionAnalysis(message);
        p.history == AppendBounded(old(p.history), Turn(message, reply.text), 50)
        && p.states == Absorbed(old(p.states), message)
        && r == CharacterResponse(reply.text, Dominant(scores), scores[Dominant(scores)], p.stage,
                                  OllamaMeta(p.ext.modelName, scores))
    ensures r.text == ReplyText(old(p.ext), old(p.stage), old(p.states), old(p.history), message, world, pick)
  {
    if !IsAvailable(p.ext, world) {
      r := SimpleProvider.Fallback(message, pick);
      return;
    }
    var msgs := BuildMessages(SystemPrompt(p.stage, p.states), p.history, message);
    var reply := world.ollamaChat(ValueText(p.ext.modelName), msgs);
    if reply.Failure? {
      r := SimpleProvider.Fallback(message, pick);
      return;
    }
    var scores := EmotionAnalysis(message);
    var d := Dominant(scores);
    p.Absorb(message);
    p.AddConversation(message, reply.text);
    r := CharacterResponse(reply.text, d, scores[d], p.stage, OllamaMeta(p.ext.modelName, scores));
  }

  /** `generate_stream_response`. The fragments are passed through as they come;
      after a complete stream with a non-empty text the turn is recorded once and
      the emotion learned. A stream that raises keeps what it yielded, then the
      fresh simple responder's chunks follow, and nothing is recorded. */
  method GenerateStream(p: Provider, message: string, world: World, pick: nat) returns (chunks: seq<string>)
    requires p.Valid() && p.ext.OllamaExt?
    modifies p
    ensures p.Valid()
    ensures p.ext == old(p.ext) && p.config == old(p.config) && p.characterContext == old(p.characterContext)
    ensures var s := world.ollamaStream(ValueText(p.ext.modelName),
                                        Messages(SystemPrompt(old(p.stage), old(p.states)), old(p.history), message));
      if !IsAvailable(p.ext, world) then
        chunks == Chars(SimpleProvider.FallbackResponse(message, pick).text)
        && p.history == old(p.history) && p.states == old(p.states) && p.stage == old(p.stage)
      else if s.raised then
        chunks == s.parts + Chars(SimpleProvider.FallbackResponse(message, pick).text)
        && p.history == old(p.history) && p.states == old(p.states) && p.stage == old(p.stage)
      else
        chunks == s.parts
        && (Concat(s.parts) == "" ==> p.history == old(p.history) && p.states == old(p.states))
        && (Concat(s.parts) != "" ==>
              p.history == AppendBounded(old(p.history), Turn(message, Concat(s.parts)), 50)
              && p.states == Absorbed(old(p.states), message))
    ensures chunks == StreamChunks(old(p.ext), old(p.stage), old(p.states), old(p.history), message, world, pick)
  {
    if !IsAvailable(p.ext, world) {
      chunks := SimpleProvider.FallbackStream(message, pick);
      return;
    }
    var msgs := BuildMessages(SystemPrompt(p.stage, p.states), p.history, message);
    var s := world.ollamaStream(ValueText(p.ext.modelName), msgs);
    var full;
    chunks, full := Relay(s.parts);
    if s.raised {
      var rest := SimpleProvider.FallbackStream(message, pick);
      chunks := chunks + rest;
      return;
    }
    if full != "" {
      p.AddConversation(message, full);
      p.Absorb(message);
    }
  }

  /** The streaming loop: pass every fragment on and accumulate the full text. */
  method Relay(parts: seq<string>) returns (chunks: seq<string>, full: string)
    ensures chunks == parts && full == Concat(parts)
  {
    full := "";
    chunks := [];
    var i := 0;
    while i < |parts|
      invariant 0 <= i <= |parts|
      invariant chunks == parts[..i] && full == Concat(parts[..i])
    {
      assert parts[..i + 1][..i] == parts[..i];
      full := full + parts[i];
      chunks := chunks + [parts[i]];
      i := i + 1;
    }
    assert parts[..i] == parts;
  }

  // ---------------------------------------------------------------------------
  // Models
  // ---------------------------------------------------------------------------

  /** `get_available_models`: the server's model names, or none when unavailable. */
  function AvailableModels(ext: Ext, world: World): (names: seq<string>)
    requires ext.OllamaExt?
    ensures !IsAvailable(ext, world) ==> names == []
    ensures IsAvailable(ext, world) ==> names == world.ollamaList(ext.baseUrl).value
  {
    if IsAvailable(ext, world) then world.ollamaList(ext.baseUrl).value else []
  }

  /** `set_model`: switch model (in the field and in `config`) only to one the server lists. */
  method SetModel(p: Provider, name: string, world: World)
    requires p.Valid() && p.ext.OllamaExt?
    modifies p
    ensures p.Valid() && p.ext.OllamaExt?
    ensures name in AvailableModels(old(p.ext), world) ==>
      p.ext == old(p.ext).(modelName := Str(name)) && p.config == Dict.Put(old(p.config), "model", Str(name))
    ensures name !in AvailableModels(old(p.ext), world) ==> p.ext == old(p.ext) && p.config == old(p.config)
    ensures p.history == old(p.history) && p.states == old(p.states) && p.characterContext == old(p.characterContext)
  {
    var available := AvailableModels(p.ext, world);
    if name in available {
      p.ext := OllamaExt(Str(name), p.ext.host, p.ext.port, p.ext.baseUrl, p.ext.hasClient);
      p.config := Dict.Put(p.config, "model", Str(name));
    }
  }

  /** A model the server does not list can never be selected. */
  lemma UnlistedModelRefused(ext: Ext, world: World, name: string)
    requires ext.OllamaExt? && !IsAvailable(ext, world)
    ensures name !in AvailableModels(ext, world)
  {
  }
}
