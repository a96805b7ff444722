/** `EmotionSystem`: the emotion ledger behind the colour stages. It keeps a
    level per learned emotion, counts interactions, records every learning step,
    derives the colour stage from how many levels exceed 0.1, and persists
    itself as a record whose history is cut to the newest 100 steps. */
module EmotionLedger {
  import opened Common
  import opened Emotion
  import Dict

  // ---------------------------------------------------------------------------
  // Keyword detection (step 0.2)
  // ---------------------------------------------------------------------------

  function LedgerKeywords(e: EmotionType): seq<string>
  {
    match e
    case Joy => ["嬉しい", "楽しい", "幸せ", "わぁ", "すごい", "素晴らしい", "やった"]
    case Anger => ["怒り", "腹立つ", "むっ", "許せない", "イライラ", "むぅ"]
    case Sadness => ["悲しい", "寂しい", "つらい", "残念", "切ない", "悲しみ"]
    case Love => ["愛", "好き", "大切", "ありがとう", "愛情", "愛している"]
    case Surprise => ["驚き", "えっ", "びっくり", "まさか", "信じられない"]
    case Fear => ["怖い", "不安", "心配", "恐れ", "恐怖", "ドキドキ"]
    case Disgust => ["嫌い", "気持ち悪い", "不快", "嫌悪", "うげっ"]
    case Anticipation => ["期待", "楽しみ", "待ち遠しい", "わくわく", "希望"]
  }

  /** What `detect_emotion_from_text` computes: every emotion scored as
      `min(1, 0.2 * hits)`. */
  function Detection(text: string): (scores: map<EmotionType, real>)
    ensures forall e :: e in scores && 0.0 <= scores[e] <= 1.0
    ensures forall e :: scores[e] > 0.0 <==> AnyContained(LedgerKeywords(e), text)
  {
    map e: EmotionType | true :: LedgerScore(e, text)
  }

  /** The score of one emotion: 0.2 per keyword of its list found, at most 1. */
  function LedgerScore(e: EmotionType, text: string): real
  {
    KeywordScore(LedgerKeywords(e), text, 0.2)
  }

  /** The inner loop of `detect_emotion_from_text`: add 0.2 per keyword found,
      then cap at 1. */
  method KeywordHits(words: seq<string>, text: string) returns (score: real)
    ensures score == KeywordScore(words, text, 0.2)
  {
    var sum := 0.0;
    var j := 0;
    while j < |words|
      invariant 0 <= j <= |words|
      invariant sum == CountContained(words[..j], text) as real * 0.2
    {
      assert words[..j + 1] == words[..j] + [words[j]];
      CountContainedSnoc(words[..j], words[j], text);
      if Contains(text, words[j]) {
        sum := sum + 0.2;
      }
      j := j + 1;
    }
    assert words[..j] == words;
    score := MinReal(sum, 1.0);
  }

  /** `detect_emotion_from_text`: one score per emotion, in enumeration order. */
  method DetectEmotionFromText(text: string) returns (scores: map<EmotionType, real>)
    ensures scores == Detection(text)
  {
    scores := map[];
    var i := 0;
    while i < |AllEmotions|
      invariant 0 <= i <= |AllEmotions|
      invariant ScoredUpTo(scores, text, i)
    {
      var e := AllEmotions[i];
      var score := KeywordHits(LedgerKeywords(e), text);
      assert score == LedgerScore(e, text);
      ScoredStep(scores, text, i, score);
      scores := scores[e := score];
      i := i + 1;
    }
    ScoredAll(scores, text);
  }

  /** The emotions before position `n` are scored, and only those. */
  predicate ScoredUpTo(scores: map<EmotionType, real>, text: string, n: nat)
  {
    (forall e :: e in scores <==> Ordinal(e) < n)
    && forall e :: e in scores ==> scores[e] == LedgerScore(e, text)
  }

  lemma ScoredStep(scores: map<EmotionType, real>, text: string, i: nat, score: real)
    requires i < |AllEmotions| && ScoredUpTo(scores, text, i)
    requires score == LedgerScore(AllEmotions[i], text)
    ensures ScoredUpTo(scores[AllEmotions[i] := score], text, i + 1)
  {
    var e := AllEmotions[i];
    AllEmotionsDistinct();
    assert Ordinal(e) == i;
  }

  lemma ScoredAll(scores: map<EmotionType, real>, text: string)
    requires ScoredUpTo(scores, text, |AllEmotions|)
    ensures scores == Detection(text)
  {
    forall e ensures e in scores {
      assert Ordinal(e) < |AllEmotions|;
    }
    assert scores == map e: EmotionType | true :: LedgerScore(e, text);
  }

  // ---------------------------------------------------------------------------
  // Levels and the stage table: >= 2 / >= 4 / >= 6 levels above 0.1
  // ---------------------------------------------------------------------------

  type Levels = map<EmotionType, real>

  /** The level of an emotion, 0 when it has never been learned. */
  function LevelOf(m: Levels, e: EmotionType): real
  {
    if e in m then m[e] else 0.0
  }

  /** The levels after `learn_emotion(e, intensity)`: the old level (0 when
      absent) plus the intensity, capped at 1 and never floored. */
  function Learned(m: Levels, e: EmotionType, intensity: real): (r: Levels)
    ensures e in r && r[e] <= 1.0
    ensures r[e] == 1.0 || r[e] == LevelOf(m, e) + intensity
    ensures r[e] <= LevelOf(m, e) + intensity
    ensures forall x :: x != e ==> (x in r <==> x in m) && (x in m ==> r[x] == m[x])
  {
    m[e := MinReal(LevelOf(m, e) + intensity, 1.0)]
  }

  /** How many of `es` have a level above 0.1. */
  function CountAbove(es: seq<EmotionType>, m: Levels): (n: nat)
    ensures n <= |es|
  {
    if es == [] then 0
    else (if es[0] in m && m[es[0]] > 0.1 then 1 else 0) + CountAbove(es[1..], m)
  }

  /** The `learned_count` of `_update_color_stage`. */
  function LearnedCount(m: Levels): (n: nat)
    ensures n <= 8
  {
    CountAbove(AllEmotions, m)
  }

  /** `_update_color_stage`'s table. */
  function LedgerStage(count: nat): (s: ColorStage)
    ensures s == Monochrome <==> count <= 1
    ensures s == PartialColor <==> 2 <= count <= 3
    ensures s == RainbowTransition <==> 4 <= count <= 5
    ensures s == FullColor <==> count >= 6
  {
    if count >= 6 then FullColor
    else if count >= 4 then RainbowTransition
    else if count >= 2 then PartialColor
    else Monochrome
  }

  /** More levels above 0.1 never give an earlier stage. */
  lemma LedgerStageMonotone(a: nat, b: nat)
    requires a <= b
    ensures StageRank(LedgerStage(a)) <= StageRank(LedgerStage(b))
  {
  }

  lemma {:induction false} CountAboveMonotone(es: seq<EmotionType>, a: Levels, b: Levels)
    requires forall e :: e in a && a[e] > 0.1 ==> e in b && b[e] > 0.1
    ensures CountAbove(es, a) <= CountAbove(es, b)
  {
    if es != [] {
      CountAboveMonotone(es[1..], a, b);
    }
  }

  /** Learning with a non-negative intensity never lowers the learned count, so
      the stage never moves back; when every level was at most 1, no level
      drops either. */
  lemma LearnMonotone(m: Levels, e: EmotionType, intensity: real)
    requires intensity >= 0.0
    ensures LearnedCount(m) <= LearnedCount(Learned(m, e, intensity))
    ensures StageRank(LedgerStage(LearnedCount(m))) <= StageRank(LedgerStage(LearnedCount(Learned(m, e, intensity))))
    ensures LevelOf(m, e) <= 1.0 ==> LevelOf(m, e) <= LevelOf(Learned(m, e, intensity), e)
  {
    var r := Learned(m, e, intensity);
    forall x | x in m && m[x] > 0.1 ensures x in r && r[x] > 0.1 {
      if x == e {
        assert r[x] == 1.0 || r[x] == m[x] + intensity;
      }
    }
    CountAboveMonotone(AllEmotions, m, r);
    LedgerStageMonotone(LearnedCount(m), LearnedCount(r));
  }

  lemma {:induction false} CountAboveAbsent(es: seq<EmotionType>, m: Levels)
    requires forall i :: 0 <= i < |es| ==> es[i] !in m
    ensures CountAbove(es, m) == 0
  {
    if es != [] {
      CountAboveAbsent(es[1..], m);
    }
  }

  lemma {:induction false} CountAboveSingle(es: seq<EmotionType>, e: EmotionType, v: real)
    requires Distinct(es)
    ensures CountAbove(es, map[e := v]) <= 1
  {
    if es != [] {
      if es[0] == e {
        CountAboveAbsent(es[1..], map[e := v]);
      } else {
        CountAboveSingle(es[1..], e, v);
      }
    }
  }

  /** One emotion learned from a fresh ledger, however strongly, leaves the stage
      monochrome: partial colour needs two levels above 0.1. */
  lemma FirstLearningStaysMonochrome(e: EmotionType, intensity: real)
    ensures LedgerStage(LearnedCount(Learned(map[], e, intensity))) == Monochrome
  {
    AllEmotionsDistinct();
    CountAboveSingle(AllEmotions, e, MinReal(0.0 + intensity, 1.0));
  }

  // ---------------------------------------------------------------------------
  // Palette, bubble colour and growth level
  // ---------------------------------------------------------------------------

  /** The four colours every palette starts with. */
  const BaseColors: Dict.Table<Value> := [
    Dict.Entry("primary", Str("#1E3A8A")), Dict.Entry("accent", Str("#FFD700")),
    Dict.Entry("text", Str("#000000")), Dict.Entry("background", Str("#FFFFFF"))]

  const RainbowBorder: string := "linear-gradient(45deg, #FF0000, #FF7F00, #FFFF00, #00FF00, #0000FF, #4B0082, #9400D3)"

  /** The entries each stage adds after the base colours. */
  function StageColors(s: ColorStage): (t: Dict.Table<Value>)
    ensures 2 <= |t| && t[0].key == "bubble" && t[0].value.Str?
  {
    match s
    case Monochrome => [Dict.Entry("bubble", Str("#F5F5F5")), Dict.Entry("border", Str("#808080"))]
    case PartialColor => [Dict.Entry("bubble", Str("#FFF8DC")), Dict.Entry("border", Str("#FFD700")),
                          Dict.Entry("emotion", Str("#FF69B4"))]
    case RainbowTransition => [Dict.Entry("bubble", Str("#E6F3FF")), Dict.Entry("border", Str("#4169E1")),
                               Dict.Entry("emotion_joy", Str("#FFFF00")), Dict.Entry("emotion_anger", Str("#FF0000")),
                               Dict.Entry("emotion_sadness", Str("#0000FF"))]
    case FullColor => [Dict.Entry("bubble", Str("#FFFFFF")), Dict.Entry("border", Str(RainbowBorder)),
                       Dict.Entry("rainbow_effect", Flag(true))]
  }

  /** `get_current_color_palette`: the base colours followed by the stage's own
      entries (none of which repeats a base name). */
  function Palette(s: ColorStage): (p: Dict.Table<Value>)
    ensures |p| == 4 + |StageColors(s)|
    ensures p[..4] == BaseColors
    ensures p[4].key == "bubble" && p[4].value.Str?
  {
    BaseColors + StageColors(s)
  }

  /** Every palette holds the four base colours under their names, and a bubble
      colour. */
  lemma PaletteHasBaseColors(s: ColorStage)
    ensures Dict.Get(Palette(s), "primary") == Some(Str("#1E3A8A"))
    ensures Dict.Get(Palette(s), "accent") == Some(Str("#FFD700"))
    ensures Dict.Get(Palette(s), "text") == Some(Str("#000000"))
    ensures Dict.Get(Palette(s), "background") == Some(Str("#FFFFFF"))
    ensures Dict.Has(Palette(s), "bubble")
  {
    var p := Palette(s);
    assert p[..4] == BaseColors;
    BaseLookup(p, 0);
    BaseLookup(p, 1);
    BaseLookup(p, 2);
    BaseLookup(p, 3);
    assert Dict.Keys(p)[4] == "bubble";
  }

  /** The base colour at position `i` is what a lookup of its name finds. */
  lemma BaseLookup(p: Dict.Table<Value>, i: nat)
    requires i < 4 && |p| >= 4 && p[..4] == BaseColors
    ensures Dict.Get(p, BaseColors[i].key) == Some(BaseColors[i].value)
  {
    assert p == BaseColors + p[4..];
    BaseColorsFirst(i);
    Dict.GetConcat(BaseColors, p[4..], BaseColors[i].key);
  }

  /** The four base names differ, so each is found at its own place. */
  lemma BaseColorsFirst(i: nat)
    requires i < 4
    ensures Dict.Get(BaseColors, BaseColors[i].key) == Some(BaseColors[i].value)
  {
    forall j | 0 <= j < i ensures BaseColors[j].key != BaseColors[i].key {
      assert BaseColors[j].key[0] != BaseColors[i].key[0];
    }
    Dict.GetFirst(BaseColors, i);
  }

  /** The sum of the levels of `es`. */
  function SumLevels(es: seq<EmotionType>, m: Levels): real
  {
    if es == [] then 0.0 else LevelOf(m, es[0]) + SumLevels(es[1..], m)
  }

  /** `get_growth_level`: 0 for an empty ledger, else the sum of the levels over
      eight, capped at 1. */
  function GrowthLevel(m: Levels): (g: real)
    ensures g <= 1.0
    ensures m == map[] ==> g == 0.0
  {
    if m == map[] then 0.0 else MinReal(SumLevels(AllEmotions, m) / 8.0, 1.0)
  }

  lemma {:induction false} SumLevelsBounds(es: seq<EmotionType>, m: Levels)
    requires forall e :: e in m ==> 0.0 <= m[e] <= 1.0
    ensures 0.0 <= SumLevels(es, m) <= |es| as real
    ensures SumLevels(es, m) == |es| as real <==> forall i :: 0 <= i < |es| ==> LevelOf(m, es[i]) == 1.0
  {
    if es != [] {
      SumLevelsBounds(es[1..], m);
      if SumLevels(es, m) == |es| as real {
        forall i | 0 <= i < |es| ensures LevelOf(m, es[i]) == 1.0 {
          if i > 0 {
            assert es[i] == es[1..][i - 1];
          }
        }
      }
      if forall i :: 0 <= i < |es| ==> LevelOf(m, es[i]) == 1.0 {
        assert forall i :: 0 <= i < |es[1..]| ==> LevelOf(m, es[1..][i]) == 1.0 by {
          forall i | 0 <= i < |es[1..]| ensures LevelOf(m, es[1..][i]) == 1.0 {
            assert es[1..][i] == es[i + 1];
          }
        }
      }
    }
  }

  /** With every level in [0, 1], the growth level lies in [0, 1] and reaches 1
      exactly when all eight emotions are fully learned. */
  lemma GrowthLevelRange(m: Levels)
    requires forall e :: e in m ==> 0.0 <= m[e] <= 1.0
    ensures 0.0 <= GrowthLevel(m) <= 1.0
    ensures GrowthLevel(m) == 1.0 <==> forall e :: e in m && m[e] == 1.0
  {
    SumLevelsBounds(AllEmotions, m);
    if forall e :: e in m && m[e] == 1.0 {
      assert m != map[] by {
        assert Joy in m;
      }
      forall i | 0 <= i < |AllEmotions| ensures LevelOf(m, AllEmotions[i]) == 1.0 {
      }
    }
    if GrowthLevel(m) == 1.0 {
      forall e ensures e in m && m[e] == 1.0 {
        assert LevelOf(m, AllEmotions[Ordinal(e)]) == 1.0;
      }
    }
  }

  function EmotionBubbleColor(e: EmotionType): string
  {
    match e
    case Joy => "#FFF8DC"
    case Anger => "#FFE4E1"
    case Sadness => "#E6F3FF"
    case Love => "#FFB6C1"
    case Surprise => "#F0E68C"
    case Fear => "#E6E6FA"
    case Disgust => "#F5F5DC"
    case Anticipation => "#F0FFF0"
  }

  /** `get_bubble_color_for_emotion`: the palette's bubble colour, except that
      past monochrome and above half growth the current emotion's own colour is
      used. */
  function BubbleColor(stage: ColorStage, m: Levels, current: Option<EmotionType>): (c: string)
    ensures stage == Monochrome || current.None? || GrowthLevel(m) <= 0.5 ==> c == Palette(stage)[4].value.s
    ensures stage != Monochrome && current.Some? && GrowthLevel(m) > 0.5 ==> c == EmotionBubbleColor(current.value)
  {
    var palette := Palette(stage);
    if stage == Monochrome then palette[4].value.s
    else if current.Some? && GrowthLevel(m) > 0.5 then EmotionBubbleColor(current.value)
    else palette[4].value.s
  }

  // ---------------------------------------------------------------------------
  // The persisted record
  // ---------------------------------------------------------------------------

  /** One entry of `emotion_history`. */
  datatype Step = Step(timestamp: string, emotion: string, intensity: real, learnedLevel: real)

  /** The record file. Fields are `None` when the key is absent; `Unreadable`
      stands for a file that exists but does not parse. */
  datatype SavedFile =
    | Missing
    | Unreadable
    | Saved(learned: Option<Dict.Table<real>>, stage: Option<string>, total: Option<int>,
            history: Option<seq<Step>>, lastUpdated: string)

  /** `EmotionType(value)`; `None` when the constructor would raise. */
  function EmotionFromValue(v: string): (r: Option<EmotionType>)
    ensures r.Some? ==> EmotionValue(r.value) == v
  {
    if v == "joy" then Some(Joy)
    else if v == "anger" then Some(Anger)
    else if v == "sadness" then Some(Sadness)
    else if v == "love" then Some(Love)
    else if v == "surprise" then Some(Surprise)
    else if v == "fear" then Some(Fear)
    else if v == "disgust" then Some(Disgust)
    else if v == "anticipation" then Some(Anticipation)
    else None
  }

  lemma EmotionValueRoundTrip(e: EmotionType)
    ensures EmotionFromValue(EmotionValue(e)) == Some(e)
  {
  }

  /** `{e.value: level for e, level in levels.items()}`, written in enumeration order. */
  function LevelTable(es: seq<EmotionType>, m: Levels): (t: Dict.Table<real>)
    ensures |t| <= |es|
  {
    if es == [] then []
    else
      var e := es[|es| - 1];
      LevelTable(es[..|es| - 1], m) + (if e in m then [Dict.Entry(EmotionValue(e), m[e])] else [])
  }

  /** `{EmotionType(k): v for k, v in table.items()}`; `None` when a key names no emotion. */
  function ParseLevels(t: Dict.Table<real>): (r: Option<Levels>)
  {
    if t == [] then Some(map[])
    else
      var prior := ParseLevels(t[..|t| - 1]);
      var e := EmotionFromValue(t[|t| - 1].key);
      if prior.None? || e.None? then None else Some(prior.value[e.value := t[|t| - 1].value])
  }

  /** The levels of `es` only. */
  function Restrict(es: seq<EmotionType>, m: Levels): Levels
  {
    map e | e in m && e in es :: m[e]
  }

  lemma ParseLevelsSnoc(t: Dict.Table<real>, x: Dict.Entry<real>)
    ensures ParseLevels(t + [x]) ==
      if ParseLevels(t).None? || EmotionFromValue(x.key).None? then None
      else Some(ParseLevels(t).value[EmotionFromValue(x.key).value := x.value])
  {
    assert (t + [x])[..|t|] == t;
  }

  lemma {:induction false} ParseLevelTable(es: seq<EmotionType>, m: Levels)
    ensures ParseLevels(LevelTable(es, m)) == Some(Restrict(es, m))
  {
    if es != [] {
      var e := es[|es| - 1];
      var pre := es[..|es| - 1];
      assert es == pre + [e];
      ParseLevelTable(pre, m);
      if e in m {
        assert LevelTable(es, m) == LevelTable(pre, m) + [Dict.Entry(EmotionValue(e), m[e])];
        ParseLevelsSnoc(LevelTable(pre, m), Dict.Entry(EmotionValue(e), m[e]));
        EmotionValueRoundTrip(e);
        assert Restrict(es, m) == Restrict(pre, m)[e := m[e]];
      } else {
        assert LevelTable(es, m) == LevelTable(pre, m);
        assert Restrict(es, m) == Restrict(pre, m);
      }
    }
  }

  /** Reading back the written levels gives the same levels. */
  lemma LevelTableRoundTrip(m: Levels)
    ensures ParseLevels(LevelTable(AllEmotions, m)) == Some(m)
  {
    ParseLevelTable(AllEmotions, m);
    forall e | e in m ensures e in AllEmotions {
      AllEmotionsComplete(e);
    }
    assert Restrict(AllEmotions, m) == m;
  }

  /** What `save_emotion_data` writes. */
  function SaveRecord(m: Levels, stage: ColorStage, total: int, history: seq<Step>, now: string): (f: SavedFile)
    ensures f.Saved? && f.history.Some? && |f.history.value| <= 100
  {
    Saved(Some(LevelTable(AllEmotions, m)), Some(StageValue(stage)), Some(total), Some(PyTail(history, 100)), now)
  }

  /** The ledger's state apart from the file. */
  datatype LedgerState = LedgerState(learned: Levels, stage: ColorStage, total: int, history: seq<Step>)

  /** The state after `load_emotion_data`. A missing file changes nothing. A
      readable record whose levels and stage parse replaces all four fields
      (absent keys read as empty, monochrome, 0 and empty). Otherwise the
      levels and stage are reset and the count and history stay. */
  function Restored(s: LedgerState, file: SavedFile): (r: LedgerState)
    ensures file.Missing? ==> r == s
    ensures r.total != s.total || r.history != s.history ==> file.Saved?
  {
    match file
    case Missing => s
    case Unreadable => LedgerState(map[], Monochrome, s.total, s.history)
    case Saved(learned, stage, total, history, _) =>
      var levels := ParseLevels(learned.GetOr([]));
      var st := StageFromValue(stage.GetOr(StageValue(Monochrome)));
      if levels.None? || st.None? then LedgerState(map[], Monochrome, s.total, s.history)
      else LedgerState(levels.value, st.value, total.GetOr(0), history.GetOr([]))
  }

  /** Restoring a written record gives back the levels, the stage, the count
      and the newest 100 history steps, whatever the state before. */
  lemma SaveRestore(s: LedgerState, m: Levels, stage: ColorStage, total: int, history: seq<Step>, now: string)
    ensures Restored(s, SaveRecord(m, stage, total, history, now)) == LedgerState(m, stage, total, PyTail(history, 100))
  {
    LevelTableRoundTrip(m);
    StageValueRoundTrip(stage);
  }

  /** A record that fails to restore resets only the levels and the stage. */
  lemma RestoreFailure(s: LedgerState, file: SavedFile)
    requires file.Unreadable? || (file.Saved? && ParseLevels(file.learned.GetOr([])).None?)
    ensures Restored(s, file) == LedgerState(map[], Monochrome, s.total, s.history)
  {
  }

  /** `get_status_summary`. */
  datatype StatusSummary = StatusSummary(
    colorStage: string, growthLevel: real, learnedEmotions: Dict.Table<real>,
    totalInteractions: int, learnedEmotionCount: nat)

  // ---------------------------------------------------------------------------
  // The ledger object
  // ---------------------------------------------------------------------------

  class EmotionSystem {
    var learned: Levels
    var stage: ColorStage
    var totalInteractions: int
    var history: seq<Step>
    /** The content of the record file. */
    var file: SavedFile

    function State(): LedgerState
      reads this
    {
      LedgerState(learned, stage, totalInteractions, history)
    }

    /** `EmotionSystem()`: an empty ledger, then the record file read into it. */
    constructor (stored: SavedFile)
      ensures State() == Restored(LedgerState(map[], Monochrome, 0, []), stored)
      ensures file == stored
    {
      learned := map[];
      stage := Monochrome;
      totalInteractions := 0;
      history := [];
      file := stored;
      new;
      LoadEmotionData();
    }

    /** `learn_emotion(e, intensity)` at time `now`: raise the level, record the
        step, recompute the stage, count the interaction and save. */
    method LearnEmotion(e: EmotionType, intensity: real, now: string) returns (level: real)
      modifies this
      ensures learned == Learned(old(learned), e, intensity)
      ensures level == learned[e]
      ensures history == old(history) + [Step(now, EmotionValue(e), intensity, level)]
      ensures stage == LedgerStage(LearnedCount(learned))
      ensures totalInteractions == old(totalInteractions) + 1
      ensures file == SaveRecord(learned, stage, totalInteractions, history, now)
    {
      if e !in learned {
        learned := learned[e := 0.0];
      }
      learned := learned[e := MinReal(learned[e] + intensity, 1.0)];
      assert learned == Learned(old(learned), e, intensity);
      history := history + [Step(now, EmotionValue(e), intensity, learned[e])];
      UpdateColorStage();
      totalInteractions := totalInteractions + 1;
      SaveEmotionData(now);
      level := learned[e];
    }

    /** `_update_color_stage`. */
    method UpdateColorStage()
      modifies this
      ensures stage == LedgerStage(LearnedCount(learned))
      ensures learned == old(learned) && totalInteractions == old(totalInteractions)
      ensures history == old(history) && file == old(file)
    {
      var count := 0;
      var i := 0;
      while i < |AllEmotions|
        invariant 0 <= i <= |AllEmotions|
        invariant count + CountAbove(AllEmotions[i..], learned) == LearnedCount(learned)
      {
        assert AllEmotions[i..][1..] == AllEmotions[i + 1..];
        var e := AllEmotions[i];
        if e in learned && learned[e] > 0.1 {
          count := count + 1;
        }
        i := i + 1;
      }
      if count >= 6 {
        stage := FullColor;
      } else if count >= 4 {
        stage := RainbowTransition;
      } else if count >= 2 {
        stage := PartialColor;
      } else {
        stage := Monochrome;
      }
    }

    /** `save_emotion_data` at time `now`. */
    method SaveEmotionData(now: string)
      modifies this
      ensures file == SaveRecord(learned, stage, totalInteractions, history, now)
      ensures State() == old(State())
    {
      file := SaveRecord(learned, stage, totalInteractions, history, now);
    }

    /** `load_emotion_data` from the current record file. */
    method LoadEmotionData()
      modifies this
      ensures State() == Restored(old(State()), old(file))
      ensures file == old(file)
    {
      match file
      case Missing =>
        return;
      case Unreadable =>
        learned := map[];
        stage := Monochrome;
      case Saved(levels, storedStage, total, steps, _) =>
        var parsed := ParseLevels(levels.GetOr([]));
        var st := StageFromValue(storedStage.GetOr(StageValue(Monochrome)));
        if parsed.None? || st.None? {
          learned := map[];
          stage := Monochrome;
        } else {
          learned := parsed.value;
          stage := st.value;
          totalInteractions := total.GetOr(0);
          history := steps.GetOr([]);
        }
    }

    /** `get_current_color_palette`. */
    function GetCurrentColorPalette(): (p: Dict.Table<Value>)
      reads this
      ensures |p| >= 6 && p[..4] == BaseColors
    {
      Palette(stage)
    }

    /** `get_growth_level`. */
    function GetGrowthLevel(): (g: real)
      reads this
      ensures g <= 1.0
      ensures learned == map[] ==> g == 0.0
    {
      GrowthLevel(learned)
    }

    /** `get_status_summary`: the stage's value, the growth level, the levels by
        value, the interaction count and how many levels exceed 0.1. */
    function GetStatusSummary(): (s: StatusSummary)
      reads this
      ensures s.colorStage == StageValue(stage) && s.totalInteractions == totalInteractions
      ensures s.learnedEmotionCount == LearnedCount(learned)
      ensures ParseLevels(s.learnedEmotions) == Some(learned)
      ensures s.growthLevel == GrowthLevel(learned)
    {
      LevelTableRoundTrip(learned);
      StatusSummary(StageValue(stage), GrowthLevel(learned), LevelTable(AllEmotions, learned),
                    totalInteractions, LearnedCount(learned))
    }
  }
}
