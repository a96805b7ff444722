/** The state every responder ("AI provider") carries: eight emotion states with
    a sticky `learned` flag, a colour stage derived from the number of learned
    emotions, a bounded conversation history, and a keyword scorer. */
module BaseProvider {
  import opened Common
  import opened Emotion
  import Dict

  datatype EmotionState = EmotionState(emotion: EmotionType, intensity: real, colorHue: Option<real>, learned: bool)

  /** One `{"user": ..., "assistant": ...}` entry of a provider's history. */
  datatype Turn = Turn(user: string, assistant: string)

  /** Per-emotion scores, as returned by the keyword scorer. */
  type Scores = map<EmotionType, real>

  /** The `metadata` dictionary of each kind of response. */
  datatype Metadata =
    | SimpleMeta(category: string, detected: Scores)
    | OllamaMeta(modelName: Value, detected: Scores)
    | OpenAIMeta(model: string, tokens: int)
    | ErrorMeta(error: string)
    | OtherMeta

  datatype CharacterResponse = CharacterResponse(
    text: string,
    emotion: EmotionType,
    intensity: real,
    stage: ColorStage,
    metadata: Metadata)

  /** The fields each concrete provider class adds to the base class. */
  datatype Ext =
    | SimpleExt(responses: Dict.Table<seq<string>>)
    | OpenAIExt(hasClient: bool, model: string)
    | OllamaExt(modelName: Value, host: Value, port: Value, baseUrl: string, hasClient: bool)
      /** A provider class whose module is not part of this model, described by
          its observable behaviour: availability and the text it answers with
          (`None` when its `generate_response` raises). */
    | OtherExt(className: string, available: bool, reply: Option<string>, stream: Option<seq<string>>)

  /** `self.__class__.__name__`. */
  function ClassName(ext: Ext): string
  {
    match ext
    case SimpleExt(_) => "SimpleAIProvider"
    case OpenAIExt(_, _) => "OpenAIProvider"
    case OllamaExt(_, _, _, _, _) => "OllamaAIProvider"
    case OtherExt(name, _, _, _) => name
  }

  // ---------------------------------------------------------------------------
  // Stage table: 0 / <= 2 / <= 5 / more learned emotions
  // ---------------------------------------------------------------------------

  function ProviderStage(learnedCount: nat): (s: ColorStage)
    ensures s == Monochrome <==> learnedCount == 0
    ensures s == PartialColor <==> 1 <= learnedCount <= 2
    ensures s == RainbowTransition <==> 3 <= learnedCount <= 5
    ensures s == FullColor <==> learnedCount >= 6
  {
    if learnedCount == 0 then Monochrome
    else if learnedCount <= 2 then PartialColor
    else if learnedCount <= 5 then RainbowTransition
    else FullColor
  }

  /** More learned emotions never give a lower stage. */
  lemma ProviderStageMonotone(a: nat, b: nat)
    requires a <= b
    ensures StageRank(ProviderStage(a)) <= StageRank(ProviderStage(b))
  {
  }

  // ---------------------------------------------------------------------------
  // Emotion states
  // ---------------------------------------------------------------------------

  /** Every emotion has a state that names it, with an intensity in [0, 1]. */
  predicate StatesValid(states: map<EmotionType, EmotionState>)
  {
    forall e: EmotionType :: e in states && states[e].emotion == e && 0.0 <= states[e].intensity <= 1.0
  }

  function InitialStates(): (m: map<EmotionType, EmotionState>)
    ensures StatesValid(m)
    ensures forall e :: e in m ==> m[e].intensity == 0.0 && !m[e].learned && m[e].colorHue.None?
  {
    map e: EmotionType | true :: EmotionState(e, 0.0, None, false)
  }

  /** How many of `es` are learned. */
  function CountLearned(es: seq<EmotionType>, states: map<EmotionType, EmotionState>): (n: nat)
    ensures n <= |es|
  {
    if es == [] then 0
    else (if es[0] in states && states[es[0]].learned then 1 else 0) + CountLearned(es[1..], states)
  }

  function LearnedCount(states: map<EmotionType, EmotionState>): (n: nat)
    ensures n <= 8
  {
    CountLearned(AllEmotions, states)
  }

  /** With nothing learned the count is zero. */
  lemma {:induction false} CountLearnedNone(es: seq<EmotionType>, states: map<EmotionType, EmotionState>)
    requires forall e :: e in states ==> !states[e].learned
    ensures CountLearned(es, states) == 0
  {
    if es != [] {
      CountLearnedNone(es[1..], states);
    }
  }

  /** A state map in which every learned emotion of `a` is still learned counts no fewer. */
  lemma {:induction false} CountLearnedMonotone(es: seq<EmotionType>, a: map<EmotionType, EmotionState>, b: map<EmotionType, EmotionState>)
    requires forall e :: e in a && a[e].learned ==> e in b && b[e].learned
    ensures CountLearned(es, a) <= CountLearned(es, b)
  {
    if es != [] {
      CountLearnedMonotone(es[1..], a, b);
    }
  }

  /** The `.value` of every learned emotion, in enumeration order. */
  function LearnedValues(es: seq<EmotionType>, states: map<EmotionType, EmotionState>): (r: seq<string>)
    ensures |r| == CountLearned(es, states)
    ensures forall e :: EmotionValue(e) in r <==> e in es && e in states && states[e].learned
  {
    if es == [] then []
    else
      var rest := LearnedValues(es[1..], states);
      assert forall e :: EmotionValue(e) in rest <==> e in es[1..] && e in states && states[e].learned;
      assert forall e :: e in es <==> e == es[0] || e in es[1..];
      forall e ensures EmotionValue(e) == EmotionValue(es[0]) <==> e == es[0] {
        if EmotionValue(e) == EmotionValue(es[0]) {
          EmotionValueInjective(e, es[0]);
        }
      }
      if es[0] in states && states[es[0]].learned then [EmotionValue(es[0])] + rest else rest
  }

  function Clamp01(x: real): (r: real)
    ensures 0.0 <= r <= 1.0
    ensures 0.0 <= x <= 1.0 ==> r == x
    ensures x < 0.0 ==> r == 0.0
    ensures x > 1.0 ==> r == 1.0
  {
    if x < 0.0 then 0.0 else if x > 1.0 then 1.0 else x
  }

  // ---------------------------------------------------------------------------
  // Keyword scorer (step 0.3) and the dominant emotion
  // ---------------------------------------------------------------------------

  function Keywords(e: EmotionType): seq<string>
  {
    match e
    case Joy => ["嬉しい", "楽しい", "幸せ", "良い", "素晴らしい"]
    case Anger => ["怒り", "腹立たしい", "むかつく", "嫌い"]
    case Sadness => ["悲しい", "辛い", "寂しい", "落ち込む"]
    case Love => ["愛", "好き", "大切", "愛している"]
    case Surprise => ["驚き", "びっくり", "まさか", "信じられない"]
    case Fear => ["怖い", "恐れ", "不安", "心配"]
    case Disgust => ["気持ち悪い", "嫌", "うんざり"]
    case Anticipation => ["期待", "楽しみ", "待ち遠しい"]
  }

  /** `get_emotion_analysis`: every emotion scored as `min(1, 0.3 * hits)`. */
  function EmotionAnalysis(text: string): (scores: Scores)
    ensures forall e :: e in scores
    ensures forall e :: scores[e] == AnalysisScore(e, text)
  {
    map e: EmotionType | true :: AnalysisScore(e, text)
  }

  /** The score of one emotion: 0.3 per keyword of its list found, at most 1. */
  function AnalysisScore(e: EmotionType, text: string): real
  {
    KeywordScore(Keywords(e), text, 0.3)
  }

  /** A score is positive exactly when one of the emotion's keywords occurs, and
      above 0.3 (the threshold for updating the state) exactly when two do. */
  lemma AnalysisThresholds(text: string, e: EmotionType)
    ensures 0.0 <= EmotionAnalysis(text)[e] <= 1.0
    ensures EmotionAnalysis(text)[e] > 0.0 <==> AnyContained(Keywords(e), text)
    ensures EmotionAnalysis(text)[e] > 0.3 <==> CountContained(Keywords(e), text) >= 2
  {
    AboveOneStep(Keywords(e), text, 0.3);
  }

  function ScoreList(scores: Scores): (vals: seq<real>)
    requires forall e :: e in scores
    ensures |vals| == |AllEmotions|
    ensures forall i :: 0 <= i < |vals| ==> vals[i] == scores[AllEmotions[i]]
  {
    seq(|AllEmotions|, i requires 0 <= i < |AllEmotions| => scores[AllEmotions[i]])
  }

  /** `max(scores.items(), key=value)` over a dictionary filled in enumeration
      order: the emotion with the highest score, the earliest one on a tie. */
  function Dominant(scores: Scores): (d: EmotionType)
    requires forall e :: e in scores
    ensures forall e :: scores[e] <= scores[d]
    ensures forall e :: Ordinal(e) < Ordinal(d) ==> scores[e] < scores[d]
  {
    var vals := ScoreList(scores);
    var i := FirstMaxIndex(vals);
    assert forall e :: scores[e] == vals[Ordinal(e)];
    AllEmotions[i]
  }

  /** The most intense emotion, the earliest one on a tie. */
  function Strongest(states: map<EmotionType, EmotionState>): (d: EmotionType)
    requires StatesValid(states)
    ensures forall e :: states[e].intensity <= states[d].intensity
    ensures forall e :: Ordinal(e) < Ordinal(d) ==> states[e].intensity < states[d].intensity
  {
    var intensities := map e: EmotionType | true :: states[e].intensity;
    assert forall e :: intensities[e] == states[e].intensity;
    Dominant(intensities)
  }

  /** The states after a text has been scored and its dominant emotion, when it
      scores above 0.3, recorded with that score (the step every responder that
      analyses emotions takes after choosing its answer). */
  function Absorbed(states: map<EmotionType, EmotionState>, text: string): (r: map<EmotionType, EmotionState>)
    requires StatesValid(states)
    ensures StatesValid(r)
    ensures LearnedCount(states) <= LearnedCount(r)
    ensures var scores := EmotionAnalysis(text); var d := Dominant(scores);
      if scores[d] > 0.3 then r[d].intensity == scores[d] && r[d].learned
      else r == states
    ensures forall e :: e != Dominant(EmotionAnalysis(text)) ==> r[e] == states[e]
    ensures forall e :: r[e].colorHue == states[e].colorHue
  {
    var scores := EmotionAnalysis(text);
    var d := Dominant(scores);
    AnalysisThresholds(text, d);
    if scores[d] > 0.3 then
      var r := states[d := states[d].(intensity := Clamp01(scores[d]), learned := true)];
      CountLearnedMonotone(AllEmotions, states, r);
      r
    else states
  }

  // ---------------------------------------------------------------------------
  // Query results
  // ---------------------------------------------------------------------------

  datatype StatusReport = StatusReport(
    providerName: string,
    available: bool,
    colorStage: string,
    learnedEmotions: seq<string>,
    conversationCount: nat,
    config: Dict.Table<Value>)

  datatype ColorReport = ColorReport(
    stage: string,
    dominantEmotion: string,
    dominantIntensity: real,
    /** Keyed by the emotion; the source keys it by the emotion's `.value`. */
    emotionColors: map<EmotionType, real>)

  /** `BaseAIProvider`. The concrete classes' own fields live in `ext`; their
      constructors and overriding methods are in the modules named after them. */
  class Provider {
    var config: Dict.Table<Value>
    var characterContext: string
    var history: seq<Turn>
    var states: map<EmotionType, EmotionState>
    var stage: ColorStage
    var ext: Ext

    ghost predicate Valid()
      reads this
    {
      |history| <= 50 && StatesValid(states) && stage == ProviderStage(LearnedCount(states))
    }

    /** `BaseAIProvider.__init__` followed by the subclass's field assignments
        (`config` is `{}` when the caller passes `None`). */
    constructor (config: Dict.Table<Value>, ext: Ext)
      ensures Valid()
      ensures this.config == config && this.ext == ext
      ensures characterContext == "" && history == [] && states == InitialStates() && stage == Monochrome
    {
      this.config := config;
      characterContext := "";
      history := [];
      states := InitialStates();
      stage := Monochrome;
      this.ext := ext;
      CountLearnedNone(AllEmotions, InitialStates());
    }

    method SetCharacterContext(context: string)
      modifies this
      ensures characterContext == context
      ensures config == old(config) && history == old(history) && states == old(states)
      ensures stage == old(stage) && ext == old(ext)
    {
      characterContext := context;
    }

    /** Append one turn and keep the 50 most recent. */
    method AddConversation(user: string, assistant: string)
      requires Valid()
      modifies this
      ensures Valid()
      ensures history == AppendBounded(old(history), Turn(user, assistant), 50)
      ensures config == old(config) && characterContext == old(characterContext)
      ensures states == old(states) && stage == old(stage) && ext == old(ext)
    {
      history := history + [Turn(user, assistant)];
      if |history| > 50 {
        history := history[|history| - 50..];
      }
    }

    /** Clamp the intensity into [0, 1], mark the emotion learned, recompute the stage. */
    method UpdateEmotionState(e: EmotionType, intensity: real)
      requires Valid()
      modifies this
      ensures Valid()
      ensures states == old(states)[e := old(states)[e].(intensity := Clamp01(intensity), learned := true)]
      ensures LearnedCount(old(states)) <= LearnedCount(states)
      ensures StageRank(old(stage)) <= StageRank(stage)
      ensures config == old(config) && characterContext == old(characterContext)
      ensures history == old(history) && ext == old(ext)
    {
      ghost var before := states;
      states := states[e := states[e].(intensity := Clamp01(intensity), learned := true)];
      CountLearnedMonotone(AllEmotions, before, states);
      ProviderStageMonotone(LearnedCount(before), LearnedCount(states));
      UpdateColorStage();
    }

    /** Score `text` and record its dominant emotion when it scores above 0.3. */
    method Absorb(text: string)
      requires Valid()
      modifies this
      ensures Valid()
      ensures states == Absorbed(old(states), text)
      ensures config == old(config) && characterContext == old(characterContext)
      ensures history == old(history) && ext == old(ext)
    {
      var scores := EmotionAnalysis(text);
      var d := Dominant(scores);
      if scores[d] > 0.3 {
        UpdateEmotionState(d, scores[d]);
      }
    }

    /** `_update_color_stage`. */
    method UpdateColorStage()
      requires |history| <= 50 && StatesValid(states)
      modifies this`stage
      ensures Valid()
    {
      var n := LearnedCount(states);
      if n == 0 {
        stage := Monochrome;
      } else if n <= 2 {
        stage := PartialColor;
      } else if n <= 5 {
        stage := RainbowTransition;
      } else {
        stage := FullColor;
      }
    }

    /** The learned emotions' values in enumeration order. */
    function LearnedEmotions(): (r: seq<string>)
      reads this
      requires Valid()
      ensures StageFromValue(StageValue(stage)) == Some(ProviderStage(|r|))
      ensures forall e :: EmotionValue(e) in r <==> states[e].learned
    {
      forall e ensures e in AllEmotions {
        AllEmotionsComplete(e);
      }
      LearnedValues(AllEmotions, states)
    }

    /** `get_status_info`; `available` is the subclass's `is_available()`. */
    function StatusInfo(available: bool): (s: StatusReport)
      reads this
      requires Valid()
      ensures s.providerName == ClassName(ext) && s.available == available
      ensures s.conversationCount == |history| <= 50
      ensures StageFromValue(s.colorStage) == Some(ProviderStage(|s.learnedEmotions|))
      ensures forall e :: EmotionValue(e) in s.learnedEmotions <==> states[e].learned
    {
      StatusReport(ClassName(ext), available, StageValue(stage), LearnedEmotions(), |history|, config)
    }

    /** `get_color_info`: the stage, the most intense emotion (the earliest on a
        tie) and the hues that have been set. */
    function ColorInfo(): (c: ColorReport)
      reads this
      requires Valid()
      ensures c.stage == StageValue(stage)
      ensures exists d :: (c.dominantEmotion == EmotionValue(d) && c.dominantIntensity == states[d].intensity
                           && (forall e :: states[e].intensity <= c.dominantIntensity)
                           && (forall e :: Ordinal(e) < Ordinal(d) ==> states[e].intensity < c.dominantIntensity))
      ensures 0.0 <= c.dominantIntensity <= 1.0
      ensures forall e :: e in c.emotionColors <==> states[e].colorHue.Some?
      ensures forall e :: e in c.emotionColors ==> c.emotionColors[e] == states[e].colorHue.value
    {
      var d := Strongest(states);
      ColorReport(
        StageValue(stage),
        EmotionValue(d),
        states[d].intensity,
        map e: EmotionType | states[e].colorHue.Some? :: states[e].colorHue.value)
    }
  }

  /** A fresh provider: all eight emotions at 0 and unlearned, monochrome, no history. */
  lemma FreshProvider()
    ensures StatesValid(InitialStates())
    ensures LearnedCount(InitialStates()) == 0
    ensures ProviderStage(LearnedCount(InitialStates())) == Monochrome
  {
    CountLearnedNone(AllEmotions, InitialStates());
  }
}
