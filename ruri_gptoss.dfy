/** `RuriGPTOSS`: the character answered by a local gpt-oss model through
    Ollama, falling back to the original `RuriCharacter` when the model cannot
    be reached. What is modelled is its bookkeeping: the learned emotions and
    their stage, and the conversation history of alternating user and
    assistant entries, trimmed to the last twenty. The Ollama server and the
    legacy completion service of the fallback are parameters. */
module RuriGptOss {
  import opened Common
  import opened Emotion
  import opened External
  import CharacterAI

  const DefaultModelName: string := "gpt-oss:20b"
  const HistoryLimit: nat := 20
  const CharacterOrigin: string := "戯曲『あいのいろ』- ozaki-taisuke 作"

  /** What the Ollama server does when asked. */
  datatype OllamaServer = OllamaServer(
    /** The model names `ollama.list()` reports; `None` when it raises. */
    listed: Option<seq<string>>,
    /** The response text of `ollama.generate(model=..., prompt=...)` on the
        Harmony path; `None` when that path raises. */
    generate: (string, string) -> Option<string>,
    /** The response text of `ollama.chat(model=..., messages=...)`; `None`
        when it raises. */
    chat: (string, seq<ChatMsg>) -> Option<string>)

  /** `_check_ollama_connection` once the libraries are available: the server
      answers and lists the model. */
  predicate Connected(modelName: string, server: OllamaServer)
  {
    server.listed.Some? && modelName in server.listed.value
  }

  /** The text one inference returns: the Harmony path asks `generate` with the
      input as prompt, the plain path `chat` with an empty system message. */
  function Inference(useHarmony: bool, modelName: string, server: OllamaServer, input: string): Option<string>
  {
    if useHarmony then server.generate(modelName, input)
    else server.chat(modelName, [ChatMsg("system", ""), ChatMsg("user", input)])
  }

  /** The history keeps its last twenty entries. */
  function LastTwenty(h: seq<ChatMsg>): (r: seq<ChatMsg>)
    ensures |r| <= HistoryLimit
    ensures |r| == if |h| > HistoryLimit then HistoryLimit else |h|
    ensures r == h[|h| - |r|..]
  {
    if |h| > HistoryLimit then h[|h| - HistoryLimit..] else h
  }

  /** The history after one answered exchange. */
  function AfterExchange(h: seq<ChatMsg>, input: string, text: string): seq<ChatMsg>
  {
    LastTwenty(h + [ChatMsg("user", input), ChatMsg("assistant", text)])
  }

  /** The role expected at position `i`: user first, then alternating. */
  function RoleAt(i: nat): string
  {
    if i % 2 == 0 then "user" else "assistant"
  }

  /** Entries alternate user, assistant, user, ... and come in whole pairs. */
  predicate Paired(h: seq<ChatMsg>)
  {
    |h| % 2 == 0 && forall i :: 0 <= i < |h| ==> h[i].role == RoleAt(i)
  }

  /** A user entry and an assistant entry after whole pairs are whole pairs. */
  lemma PairedSnoc(h: seq<ChatMsg>, input: string, text: string)
    requires Paired(h)
    ensures Paired(h + [ChatMsg("user", input), ChatMsg("assistant", text)])
  {
    var g := h + [ChatMsg("user", input), ChatMsg("assistant", text)];
    forall i | 0 <= i < |g| ensures g[i].role == RoleAt(i) {
      if i == |h| {
        assert g[i].role == "user";
      } else if i == |h| + 1 {
        assert g[i].role == "assistant";
      } else {
        assert g[i] == h[i];
      }
    }
  }

  /** Dropping whole pairs from the front keeps whole pairs. */
  lemma PairedSuffix(g: seq<ChatMsg>, d: nat)
    requires Paired(g) && d <= |g| && d % 2 == 0
    ensures Paired(g[d..])
  {
    forall i | 0 <= i < |g| - d ensures g[d..][i].role == RoleAt(i) {
      assert g[d..][i] == g[d + i];
      assert (d + i) % 2 == i % 2;
    }
  }

  /** An exchange keeps the history in whole user/assistant pairs, with the new
      pair last, and never longer than twenty entries. */
  lemma ExchangeKeepsPairs(h: seq<ChatMsg>, input: string, text: string)
    requires Paired(h)
    ensures Paired(AfterExchange(h, input, text))
    ensures |AfterExchange(h, input, text)| <= HistoryLimit
    ensures AfterExchange(h, input, text)[|AfterExchange(h, input, text)| - 2..] == [ChatMsg("user", input), ChatMsg("assistant", text)]
  {
    var g := h + [ChatMsg("user", input), ChatMsg("assistant", text)];
    PairedSnoc(h, input, text);
    var r := LastTwenty(g);
    PairedSuffix(g, |g| - |r|);
    assert r[|r| - 2..] == g[|g| - 2..];
  }

  class RuriGptOss {
    const modelName: string
    const useHarmony: bool
    /** `gptoss_available`: the libraries imported and, on the Harmony path,
        the encoding loaded. */
    const gptossAvailable: bool
    /** `fallback_ruri`. */
    const fallback: CharacterAI.RuriCharacter
    var emotionsLearned: seq<string>
    var stage: ColorStage
    var history: seq<ChatMsg>

    ghost predicate Valid()
      reads this, fallback
    {
      fallback.Valid()
      && Distinct(emotionsLearned) && stage == CharacterAI.CharacterStage(|emotionsLearned|)
      && Paired(history) && |history| <= HistoryLimit
    }

    /** `RuriGPTOSS(model_name, use_harmony)`. `librariesImported` is whether
        `ollama` and `openai_harmony` imported; `encodingLoads` whether
        `load_harmony_encoding` returns. */
    constructor (modelName: string, useHarmony: bool, librariesImported: bool, encodingLoads: bool)
      ensures Valid() && fresh(fallback)
      ensures this.modelName == modelName && this.useHarmony == useHarmony
      ensures gptossAvailable == (librariesImported && (!useHarmony || encodingLoads))
      ensures emotionsLearned == [] && stage == Monochrome && history == []
      ensures fallback.emotionsLearned == [] && fallback.stage == Monochrome
    {
      this.modelName := modelName;
      this.useHarmony := useHarmony;
      var available := librariesImported;
      if available && useHarmony && !encodingLoads {
        available := false;
      }
      gptossAvailable := available;
      fallback := new CharacterAI.RuriCharacter();
      emotionsLearned := [];
      stage := Monochrome;
      history := [];
    }

    /** The text the model answers `input` with, or `None` when
        `generate_response_gptoss` takes a fallback path (unavailable,
        not connected, or the inference raised). */
    function Answered(server: OllamaServer, input: string): Option<string>
    {
      if gptossAvailable && Connected(modelName, server) then Inference(useHarmony, modelName, server, input)
      else None
    }

    /** `_fallback_response`: the fallback character's stream response. */
    function FallbackReply(input: string, complete: seq<ChatMsg> -> Reply): Result<string>
      reads fallback
    {
      CharacterAI.ReplyText(complete(CharacterAI.StreamMessages(fallback.GetSystemPrompt(None), input)))
    }

    /** `generate_response_gptoss(user_input)`. An answered exchange is
        appended to the history as a user and an assistant entry, trimmed to the
        last twenty; every fallback path leaves the history as it was and
        returns what the fallback character answers. */
    method GenerateResponseGptoss(input: string, server: OllamaServer, complete: seq<ChatMsg> -> Reply)
      returns (r: Result<string>)
      requires Valid()
      modifies this
      ensures Valid()
      ensures emotionsLearned == old(emotionsLearned) && stage == old(stage)
      ensures Answered(server, input).Some? ==>
        r == Ok(Answered(server, input).value)
        && history == AfterExchange(old(history), input, Answered(server, input).value)
      ensures Answered(server, input).None? ==> r == FallbackReply(input, complete) && history == old(history)
    {
      if !gptossAvailable || !Connected(modelName, server) {
        r := fallback.GenerateStreamResponse(input, complete);
        return;
      }
      var answer := Inference(useHarmony, modelName, server, input);
      if answer.None? {
        r := fallback.GenerateStreamResponse(input, complete);
        return;
      }
      ExchangeKeepsPairs(history, input, answer.value);
      history := history + [ChatMsg("user", input), ChatMsg("assistant", answer.value)];
      if |history| > HistoryLimit {
        history := history[|history| - HistoryLimit..];
      }
      r := Ok(answer.value);
    }

    /** `learn_emotion(emotion, viewer_comment)`. With the model available the
        request goes through `generate_response_gptoss`; otherwise to the
        fallback character, which records the emotion itself. An answer (from
        either) records the emotion once and updates the stage; a raised
        fallback call changes nothing. */
    method LearnEmotion(emotion: string, comment: string, server: OllamaServer, complete: seq<ChatMsg> -> Reply)
      returns (r: Result<string>)
      requires Valid()
      modifies this, fallback
      ensures Valid()
      ensures emotionsLearned == if r.Ok? then CharacterAI.Recorded(old(emotionsLearned), emotion) else old(emotionsLearned)
      ensures gptossAvailable ==>
        var ask := LearnRequest(emotion, comment);
        fallback.emotionsLearned == old(fallback.emotionsLearned)
        && (Answered(server, ask).Some? ==>
              r == Ok(Answered(server, ask).value) && history == AfterExchange(old(history), ask, Answered(server, ask).value))
        && (Answered(server, ask).None? ==> r == old(FallbackReply(ask, complete)) && history == old(history))
      ensures !gptossAvailable ==>
        history == old(history)
        && r == CharacterAI.ReplyText(complete(CharacterAI.LearnMessages(old(fallback.GetSystemPrompt(None)), emotion, comment)))
        && fallback.emotionsLearned == if r.Ok? then CharacterAI.Recorded(old(fallback.emotionsLearned), emotion) else old(fallback.emotionsLearned)
    {
      if gptossAvailable {
        r := GenerateResponseGptoss(LearnRequest(emotion, comment), server, complete);
      } else {
        r := fallback.LearnEmotion(emotion, comment, complete);
      }
      if r.Ok? && emotion !in emotionsLearned {
        emotionsLearned := emotionsLearned + [emotion];
        UpdateColorStage();
      }
    }

    /** `update_color_stage`: the same table as the original character. */
    method UpdateColorStage()
      modifies this
      ensures stage == CharacterAI.CharacterStage(|emotionsLearned|)
      ensures emotionsLearned == old(emotionsLearned) && history == old(history)
    {
      var count := |emotionsLearned|;
      if count == 0 {
        stage := Monochrome;
      } else if count <= 2 {
        stage := PartialColor;
      } else if count <= 4 {
        stage := RainbowTransition;
      } else {
        stage := FullColor;
      }
    }

    /** `generate_stream_response(viewer_input)`: the model when available,
        the fallback character otherwise. */
    method GenerateStreamResponse(input: string, server: OllamaServer, complete: seq<ChatMsg> -> Reply)
      returns (r: Result<string>)
      requires Valid()
      modifies this
      ensures Valid()
      ensures emotionsLearned == old(emotionsLearned) && stage == old(stage)
      ensures Answered(server, input).Some? ==>
        r == Ok(Answered(server, input).value)
        && history == AfterExchange(old(history), input, Answered(server, input).value)
      ensures Answered(server, input).None? ==> r == FallbackReply(input, complete) && history == old(history)
    {
      if gptossAvailable {
        r := GenerateResponseGptoss(input, server, complete);
      } else {
        r := fallback.GenerateStreamResponse(input, complete);
      }
    }

    /** `get_status_info()`. */
    function GetStatusInfo(): (s: Status)
      requires Valid()
      reads this, fallback
      ensures s.conversationCount == |history| && s.conversationCount <= HistoryLimit
      ensures s.conversationCount % 2 == 0
      ensures StageFromValue(s.currentColorStage) == Some(CharacterAI.CharacterStage(|s.emotionsLearned|))
    {
      StageValueRoundTrip(stage);
      Status(gptossAvailable, modelName, useHarmony, emotionsLearned, StageValue(stage), |history|, CharacterOrigin)
    }
  }

  /** The request `learn_emotion` sends to the model. */
  function LearnRequest(emotion: string, comment: string): string
  {
    "視聴者から「" + comment + "」というコメントをもらいました。これから「" + emotion + "」という感情について学びたいです。"
  }

  /** The dictionary `get_status_info` returns. */
  datatype Status = Status(
    gptossAvailable: bool,
    modelName: string,
    useHarmony: bool,
    emotionsLearned: seq<string>,
    currentColorStage: string,
    conversationCount: nat,
    characterOrigin: string)
}
