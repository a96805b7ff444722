/** The two closed enumerations shared by the provider layer and the emotion
    ledger: eight emotions and four ordered colour stages. */
module Emotion {
  import opened Common

  datatype EmotionType = Joy | Anger | Sadness | Love | Surprise | Fear | Disgust | Anticipation

  /** The enumeration order (Python iterates an `Enum` in declaration order). */
  const AllEmotions: seq<EmotionType> := [Joy, Anger, Sadness, Love, Surprise, Fear, Disgust, Anticipation]

  /** The enum's `.value`. */
  function EmotionValue(e: EmotionType): string
  {
    match e
    case Joy => "joy"
    case Anger => "anger"
    case Sadness => "sadness"
    case Love => "love"
    case Surprise => "surprise"
    case Fear => "fear"
    case Disgust => "disgust"
    case Anticipation => "anticipation"
  }

  /** Position of an emotion in the enumeration order. */
  function Ordinal(e: EmotionType): (i: nat)
    ensures i < |AllEmotions| && AllEmotions[i] == e
  {
    match e
    case Joy => 0
    case Anger => 1
    case Sadness => 2
    case Love => 3
    case Surprise => 4
    case Fear => 5
    case Disgust => 6
    case Anticipation => 7
  }

  lemma AllEmotionsComplete(e: EmotionType)
    ensures e in AllEmotions
  {
    assert AllEmotions[Ordinal(e)] == e;
  }

  lemma AllEmotionsDistinct()
    ensures forall i, j :: 0 <= i < j < |AllEmotions| ==> AllEmotions[i] != AllEmotions[j]
  {
  }

  /** Each emotion's value names it uniquely. */
  lemma EmotionValueInjective(a: EmotionType, b: EmotionType)
    requires EmotionValue(a) == EmotionValue(b)
    ensures a == b
  {
  }

  datatype ColorStage = Monochrome | PartialColor | RainbowTransition | FullColor

  function StageValue(s: ColorStage): string
  {
    match s
    case Monochrome => "monochrome"
    case PartialColor => "partial_color"
    case RainbowTransition => "rainbow_transition"
    case FullColor => "full_color"
  }

  /** The order monochrome < partial < rainbow < full. */
  function StageRank(s: ColorStage): (r: nat)
    ensures r <= 3
  {
    match s
    case Monochrome => 0
    case PartialColor => 1
    case RainbowTransition => 2
    case FullColor => 3
  }

  /** `ColorStage(value)`: `None` when the enum constructor would raise. */
  function StageFromValue(v: string): (r: Option<ColorStage>)
    ensures r.Some? ==> StageValue(r.value) == v
  {
    if v == "monochrome" then Some(Monochrome)
    else if v == "partial_color" then Some(PartialColor)
    else if v == "rainbow_transition" then Some(RainbowTransition)
    else if v == "full_color" then Some(FullColor)
    else None
  }

  lemma StageValueRoundTrip(s: ColorStage)
    ensures StageFromValue(StageValue(s)) == Some(s)
  {
  }

  /** `min(1.0, hits * step)` where `hits` counts the keywords contained in `text`:
      the keyword scorer shared by the provider layer (step 0.3) and the
      emotion ledger (step 0.2). */
  function KeywordScore(words: seq<string>, text: string, step: real): (r: real)
    requires step > 0.0
    ensures 0.0 <= r <= 1.0
    ensures r > 0.0 <==> AnyContained(words, text)
  {
    MinReal(1.0, CountContained(words, text) as real * step)
  }

  /** A score strictly above one step needs at least two keyword hits. */
  lemma AboveOneStep(words: seq<string>, text: string, step: real)
    requires 0.0 < step < 1.0
    ensures KeywordScore(words, text, step) > step <==> CountContained(words, text) >= 2
  {
    var n := CountContained(words, text);
    if n >= 2 {
      assert n as real * step >= 2.0 * step;
    } else {
      assert n as real * step <= step;
    }
  }
}
