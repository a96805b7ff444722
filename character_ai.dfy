/** The original `RuriCharacter`: a list of learned emotion names without
    repeats, a colour stage read off its length, a system prompt that shows
    both, and the image-generation prompt for a stage. The chat-completion
    service is a parameter. */
module CharacterAI {
  import opened Common
  import opened Emotion
  import opened External

  /** `update_color_stage`'s table: none learned is monochrome, one or two
      partial, three or four rainbow, five or more full colour. */
  function CharacterStage(count: nat): (s: ColorStage)
    ensures s == Monochrome <==> count == 0
    ensures s == PartialColor <==> 1 <= count <= 2
    ensures s == RainbowTransition <==> 3 <= count <= 4
    ensures s == FullColor <==> count >= 5
  {
    if count == 0 then Monochrome
    else if count <= 2 then PartialColor
    else if count <= 4 then RainbowTransition
    else FullColor
  }

  /** More learned emotions never give an earlier stage. */
  lemma CharacterStageMonotone(a: nat, b: nat)
    requires a <= b
    ensures StageRank(CharacterStage(a)) <= StageRank(CharacterStage(b))
  {
  }

  /** `emotion` appended to `learned` unless it is already there. */
  function Recorded(learned: seq<string>, emotion: string): (r: seq<string>)
    ensures Distinct(learned) ==> Distinct(r)
    ensures emotion in r && forall x :: x in learned ==> x in r
    ensures forall x :: x in r ==> x in learned || x == emotion
    ensures emotion in learned <==> r == learned
    ensures emotion !in learned <==> |r| == |learned| + 1
  {
    if emotion in learned then learned else learned + [emotion]
  }

  // ---------------------------------------------------------------------------
  // The system prompt
  // ---------------------------------------------------------------------------

  const PromptHead: string := "あなたは「ルリ」という名前のAITuberです。\n        \n        【基本設定】\n        - 感情のない世界から来た少女的存在\n        - 感情を学ぶごとに色が付いていく特殊な体質\n        - 現在は感情学習の途中段階\n        - 丁寧で好奇心旺盛な話し方\n        - 視聴者とのコミュニケーションを通じて成長\n        \n        【現在の状態】\n        - 学習済み感情: "
  const StageLabel: string := "\n        - 色彩段階: "
  const PromptEnd: string := "\n        "
  const ModeOpen: string := "\n【現在のモード】"
  const ModeClose: string := "の感情を体験中"

  /** `get_system_prompt(emotion_mode)`: the fixed description, the learned
      emotions ("なし" when none), the stage's value, and a mode line only when a
      non-empty mode is given. */
  function SystemPrompt(learned: seq<string>, stage: ColorStage, mode: Option<string>): string
  {
    var base := PromptHead + ListOrNone(learned) + StageLabel + StageValue(stage) + PromptEnd;
    if mode.Some? && mode.value != "" then base + ModeOpen + mode.value + ModeClose else base
  }

  /** The prompt always starts with the fixed description followed by the
      learned list, "なし" for an empty one; the mode line is added exactly when
      a mode is given, after the prompt without it. */
  lemma SystemPromptShape(learned: seq<string>, stage: ColorStage, mode: Option<string>)
    ensures IsPrefix(PromptHead + ListOrNone(learned) + StageLabel, SystemPrompt(learned, stage, mode))
    ensures learned == [] ==> IsPrefix(PromptHead + "なし" + StageLabel, SystemPrompt(learned, stage, mode))
    ensures mode.None? || mode.value == "" ==> SystemPrompt(learned, stage, mode) == SystemPrompt(learned, stage, None)
    ensures mode.Some? && mode.value != "" ==>
      SystemPrompt(learned, stage, mode) == SystemPrompt(learned, stage, None) + ModeOpen + mode.value + ModeClose
  {
    var head := PromptHead + ListOrNone(learned) + StageLabel;
    var withValue := head + StageValue(stage);
    var base := withValue + PromptEnd;
    PrefixOfConcat(head, StageValue(stage));
    PrefixOfConcat(withValue, PromptEnd);
    PrefixTrans(head, withValue, base);
    if mode.Some? && mode.value != "" {
      var withOpen := base + ModeOpen;
      var named := withOpen + mode.value;
      PrefixOfConcat(base, ModeOpen);
      PrefixOfConcat(withOpen, mode.value);
      PrefixOfConcat(named, ModeClose);
      PrefixTrans(head, base, withOpen);
      PrefixTrans(head, withOpen, named);
      PrefixTrans(head, named, named + ModeClose);
    }
  }

  /** The messages `learn_emotion` sends. */
  function LearnMessages(prompt: string, emotion: string, comment: string): seq<ChatMsg>
  {
    [ChatMsg("system", prompt),
     ChatMsg("user", "視聴者から「" + comment + "」というコメントをもらいました。これから「" + emotion
                     + "」という感情について学びたいです。どのように反応すべきでしょうか？")]
  }

  /** The messages `generate_stream_response` sends. */
  function StreamMessages(prompt: string, input: string): seq<ChatMsg>
  {
    [ChatMsg("system", prompt), ChatMsg("user", "視聴者からのコメント: " + input)]
  }

  /** `response.choices[0].message["content"]`, or the exception raised. */
  function ReplyText(reply: Reply): (r: Result<string>)
    ensures r.Ok? <==> reply.Answer?
    ensures r.Ok? ==> r.value == reply.text
  {
    match reply
    case Answer(text, _) => Ok(text)
    case Failure(error) => Err(error)
  }

  class RuriCharacter {
    var emotionsLearned: seq<string>
    var stage: ColorStage

    /** No emotion is listed twice, and the stage is the table applied to the
        list's length. */
    ghost predicate Valid()
      reads this
    {
      Distinct(emotionsLearned) && stage == CharacterStage(|emotionsLearned|)
    }

    constructor ()
      ensures Valid() && emotionsLearned == [] && stage == Monochrome
    {
      emotionsLearned := [];
      stage := Monochrome;
    }

    function GetSystemPrompt(mode: Option<string>): string
      reads this
    {
      SystemPrompt(emotionsLearned, stage, mode)
    }

    /** `learn_emotion(emotion, viewer_comment)` with the completion service
        `complete`. When the call raises, nothing changes; otherwise the emotion
        is recorded (once) and the stage follows, and the answer is returned. */
    method LearnEmotion(emotion: string, comment: string, complete: seq<ChatMsg> -> Reply) returns (r: Result<string>)
      requires Valid()
      modifies this
      ensures Valid()
      ensures r == ReplyText(complete(LearnMessages(old(GetSystemPrompt(None)), emotion, comment)))
      ensures emotionsLearned == if r.Ok? then Recorded(old(emotionsLearned), emotion) else old(emotionsLearned)
    {
      var prompt := GetSystemPrompt(None);
      var reply := complete(LearnMessages(prompt, emotion, comment));
      if reply.Failure? {
        return Err(reply.error);
      }
      if emotion !in emotionsLearned {
        emotionsLearned := emotionsLearned + [emotion];
        UpdateColorStage();
      }
      r := Ok(reply.text);
    }

    /** `update_color_stage`. */
    method UpdateColorStage()
      modifies this
      ensures stage == CharacterStage(|emotionsLearned|) && emotionsLearned == old(emotionsLearned)
    {
      var count := |emotionsLearned|;
      if count == 0 {
        stage := Monochrome;
      } else if count <= 2 {
        stage := PartialColor;
      } else if count <= 4 {
        stage := RainbowTransition;
      } else {
        stage := FullColor;
      }
    }

    /** `generate_stream_response(viewer_input)`: one completion call; the
        character does not change. */
    method GenerateStreamResponse(input: string, complete: seq<ChatMsg> -> Reply) returns (r: Result<string>)
      ensures r == ReplyText(complete(StreamMessages(SystemPrompt(emotionsLearned, stage, None), input)))
    {
      r := ReplyText(complete(StreamMessages(GetSystemPrompt(None), input)));
    }
  }

  /** Learning an emotion that is already listed changes neither the list nor
      the stage; a new one moves the stage to the table's entry for one more. */
  lemma RelearnChangesNothing(learned: seq<string>, emotion: string)
    requires Distinct(learned)
    ensures emotion in learned ==> CharacterStage(|Recorded(learned, emotion)|) == CharacterStage(|learned|)
    ensures emotion !in learned ==> CharacterStage(|Recorded(learned, emotion)|) == CharacterStage(|learned| + 1)
    ensures StageRank(CharacterStage(|learned|)) <= StageRank(CharacterStage(|Recorded(learned, emotion)|))
  {
    CharacterStageMonotone(|learned|, |Recorded(learned, emotion)|);
  }

  // ---------------------------------------------------------------------------
  // The image-generation prompt
  // ---------------------------------------------------------------------------

  const BaseDescription: string := "\n    A mysterious girl character named Ruri from a story about learning emotions.\n    She has an ethereal, otherworldly appearance with large expressive eyes.\n    "
  const StageLine: string := "\n\nColor stage: "
  const StyleLine: string := "\n\nStyle: Anime/manga character design, high quality digital art."

  const MonochromeLook: string := "Completely monochrome with shades of gray, white, and black. Only subtle blue (Ruri/lapis lazuli) and gold (star) accents."

  /** `color_descriptions.get(stage, color_descriptions['monochrome'])`. */
  function ColorDescription(stage: string): (d: string)
    ensures stage !in {"partial_color", "rainbow_transition", "full_color"} ==> d == MonochromeLook
  {
    if stage == "partial_color" then "Mostly monochrome but with hints of warm colors (yellow, pink) in her eyes and small details."
    else if stage == "rainbow_transition" then "Half-colored with vibrant emotions showing - some parts still monochrome, others bursting with color."
    else if stage == "full_color" then "Full rainbow colors throughout, showing complete emotional awakening with prismatic effects."
    else MonochromeLook
  }

  /** `generate_image_prompt_for_ruri(emotion_stage)`. */
  function ImagePrompt(stage: string): string
  {
    BaseDescription + StageLine + ColorDescription(stage) + StyleLine
  }

  /** Every image prompt starts with the base description and ends with the
      style line; a stage the table does not know is drawn as monochrome. */
  lemma ImagePromptShape(stage: string)
    ensures IsPrefix(BaseDescription, ImagePrompt(stage))
    ensures |StyleLine| <= |ImagePrompt(stage)|
    ensures ImagePrompt(stage)[|ImagePrompt(stage)| - |StyleLine|..] == StyleLine
    ensures stage !in {"partial_color", "rainbow_transition", "full_color"} ==> ImagePrompt(stage) == ImagePrompt("monochrome")
  {
    var staged := BaseDescription + StageLine;
    var described := staged + ColorDescription(stage);
    PrefixOfConcat(BaseDescription, StageLine);
    PrefixOfConcat(staged, ColorDescription(stage));
    PrefixOfConcat(described, StyleLine);
    PrefixTrans(BaseDescription, staged, described);
    PrefixTrans(BaseDescription, described, described + StyleLine);
    SuffixOfConcat(described, StyleLine);
  }
}
